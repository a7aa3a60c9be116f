/**
 * The list command (cmd/list.go): of the repository's tags, those named in the
 * backup layout are read with their messages, optionally filtered by an
 * environment and workspace id, described by the ids their messages name, and
 * shown newest first, at most ten.
 *
 * The tags arrive as a sequence in the order the repository iterates them;
 * printing is left out, so the result is the sequence of entries shown.
 */
module Catalog {
  import opened Wrappers
  import opened Text
  import opened Stamp
  import opened Config
  import B = Backup

  const ShowLimit := 10
  const EnvPrefix := "env:"
  const WsPrefix := "ws:"

  /** A tag reference: its short name and the message of its tag object, None when that cannot be read. */
  datatype TagRef = TagRef(name: string, message: Option<string>)

  /** tagInfo: a listed backup, with the comma-joined ids its message names. */
  datatype TagInfo = TagInfo(name: string, envIds: string, wsIds: string, time: Time, message: string)

  /** The message a tag is listed with: an unreadable tag object counts as an empty message. */
  function MessageOf(ref: TagRef): string {
    match ref.message
    case Some(m) => m
    case None => ""
  }

  /**
   * The --env-id/--ws-id filter: it applies only when both ids are given, and
   * then keeps a message that contains `env:<envID>` and `ws:<wsID>` anywhere,
   * independently of each other.
   */
  predicate Selected(message: string, envID: string, wsID: string) {
    envID != "" && wsID != "" ==> Contains(message, EnvPrefix + envID) && Contains(message, WsPrefix + wsID)
  }

  // ---------------------------------------------------------------------------
  // Ids named in a message

  /** The `env:` tokens among `parts`, in order, with the prefix removed. */
  function EnvIds(parts: seq<string>): (r: seq<string>)
    ensures |r| <= |parts|
  {
    if parts == [] then []
    else
      var last := parts[|parts| - 1];
      EnvIds(parts[..|parts| - 1]) + (if HasPrefix(last, EnvPrefix) then [TrimPrefix(last, EnvPrefix)] else [])
  }

  /** The `ws:` tokens among `parts` that are not `env:` tokens, in order, with the prefix removed. */
  function WsIds(parts: seq<string>): (r: seq<string>)
    ensures |r| <= |parts|
  {
    if parts == [] then []
    else
      var last := parts[|parts| - 1];
      WsIds(parts[..|parts| - 1]) + (if !HasPrefix(last, EnvPrefix) && HasPrefix(last, WsPrefix) then [TrimPrefix(last, WsPrefix)] else [])
  }

  /** The token loop of the list command: the message split on single spaces, each token classified. */
  method ParseIds(message: string) returns (envIds: seq<string>, wsIds: seq<string>)
    ensures envIds == EnvIds(Split(message, ' '))
    ensures wsIds == WsIds(Split(message, ' '))
  {
    var parts := Split(message, ' ');
    envIds, wsIds := [], [];
    for k := 0 to |parts|
      invariant envIds == EnvIds(parts[..k])
      invariant wsIds == WsIds(parts[..k])
    {
      assert parts[..k + 1][..k] == parts[..k];
      var part := parts[k];
      if HasPrefix(part, EnvPrefix) {
        envIds := envIds + [TrimPrefix(part, EnvPrefix)];
      } else if HasPrefix(part, WsPrefix) {
        wsIds := wsIds + [TrimPrefix(part, WsPrefix)];
      }
    }
    assert parts[..|parts|] == parts;
  }

  // ---------------------------------------------------------------------------
  // Collecting

  /** The entry listed for a tag named `name` at time `t` with message `message`. */
  function Info(name: string, message: string, t: Time): TagInfo {
    var parts := Split(message, ' ');
    TagInfo(name, Join(EnvIds(parts), ","), Join(WsIds(parts), ","), t, message)
  }

  /** The entry `ref` contributes: none when its name is not in the layout or the filter rejects its message. */
  function Listed(ref: TagRef, envID: string, wsID: string): seq<TagInfo> {
    match ParseStamp(ref.name)
    case None => []
    case Some(t) => if Selected(MessageOf(ref), envID, wsID) then [Info(ref.name, MessageOf(ref), t)] else []
  }

  /** The entries of all tags, in iteration order. */
  function Collected(refs: seq<TagRef>, envID: string, wsID: string): seq<TagInfo> {
    if refs == [] then []
    else Collected(refs[..|refs| - 1], envID, wsID) + Listed(refs[|refs| - 1], envID, wsID)
  }

  /** The ForEach callback over the tags, appending to the filtered list. */
  method CollectTags(refs: seq<TagRef>, envID: string, wsID: string) returns (tags: seq<TagInfo>)
    ensures tags == Collected(refs, envID, wsID)
  {
    tags := [];
    for i := 0 to |refs|
      invariant tags == Collected(refs[..i], envID, wsID)
    {
      assert refs[..i + 1][..i] == refs[..i];
      var ref := refs[i];
      var parsed := ParseStamp(ref.name);
      if parsed.None? {
        continue;
      }
      var message := "";
      if ref.message.Some? {
        message := ref.message.value;
      }
      if envID != "" && wsID != "" {
        if !Contains(message, EnvPrefix + envID) || !Contains(message, WsPrefix + wsID) {
          continue;
        }
      }
      var envIds, wsIds := ParseIds(message);
      tags := tags + [TagInfo(ref.name, Join(envIds, ","), Join(wsIds, ","), parsed.value, message)];
    }
    assert refs[..|refs|] == refs;
  }

  /** Tag `ref` yields entry `x`: its name is in the backup layout, the filter keeps its message, and `x` carries the time the name encodes. */
  predicate Yields(ref: TagRef, envID: string, wsID: string, x: TagInfo) {
    ParseStamp(ref.name).Some? && Selected(MessageOf(ref), envID, wsID)
    && x == Info(ref.name, MessageOf(ref), ParseStamp(ref.name).value)
  }

  /** A tag lists exactly the entry it yields. */
  lemma ListedYields(ref: TagRef, envID: string, wsID: string, x: TagInfo)
    ensures x in Listed(ref, envID, wsID) <==> Yields(ref, envID, wsID, x)
  {
  }

  /** Every listed entry comes from a tag that yields it. */
  lemma {:induction false} CollectedSound(refs: seq<TagRef>, envID: string, wsID: string, x: TagInfo) returns (k: nat)
    requires x in Collected(refs, envID, wsID)
    ensures k < |refs| && Yields(refs[k], envID, wsID, x)
  {
    var init := refs[..|refs| - 1];
    var last := |refs| - 1;
    assert Collected(refs, envID, wsID) == Collected(init, envID, wsID) + Listed(refs[last], envID, wsID);
    if x in Collected(init, envID, wsID) {
      k := CollectedSound(init, envID, wsID, x);
      assert refs[k] == init[k];
    } else {
      ListedYields(refs[last], envID, wsID, x);
      k := last;
    }
  }

  /** Every entry a tag yields is listed. */
  lemma {:induction false} CollectedComplete(refs: seq<TagRef>, envID: string, wsID: string, x: TagInfo, k: nat)
    requires k < |refs| && Yields(refs[k], envID, wsID, x)
    ensures x in Collected(refs, envID, wsID)
  {
    var init := refs[..|refs| - 1];
    var last := |refs| - 1;
    assert Collected(refs, envID, wsID) == Collected(init, envID, wsID) + Listed(refs[last], envID, wsID);
    if k < last {
      assert refs[k] == init[k];
      CollectedComplete(init, envID, wsID, x, k);
    } else {
      ListedYields(refs[last], envID, wsID, x);
    }
  }

  /** A tag is listed exactly when its name is in the backup layout and the filter keeps its message. */
  lemma CollectedMembers(refs: seq<TagRef>, envID: string, wsID: string, x: TagInfo)
    ensures x in Collected(refs, envID, wsID) <==> exists k :: 0 <= k < |refs| && Yields(refs[k], envID, wsID, x)
  {
    if x in Collected(refs, envID, wsID) {
      var k := CollectedSound(refs, envID, wsID, x);
    }
    if exists k :: 0 <= k < |refs| && Yields(refs[k], envID, wsID, x) {
      var k :| 0 <= k < |refs| && Yields(refs[k], envID, wsID, x);
      CollectedComplete(refs, envID, wsID, x, k);
    }
  }

  /**
   * The filter matches ids as substrings, independently of each other: a
   * message names `env:<envID>` and `ws:<wsID>` in any two places, perhaps
   * as the start of longer ids `envID + x` and `wsID + y`, and is kept.
   */
  lemma SelectedBySubstrings(a: string, envID: string, x: string, b: string, wsID: string, y: string, c: string)
    ensures Selected(a + (EnvPrefix + envID + x) + b + (WsPrefix + wsID + y) + c, envID, wsID)
  {
    var m := a + (EnvPrefix + envID + x) + b + (WsPrefix + wsID + y) + c;
    ContainsPiece(a, EnvPrefix + envID + x, b + (WsPrefix + wsID + y) + c);
    assert m == a + (EnvPrefix + envID + x) + (b + (WsPrefix + wsID + y) + c);
    ContainsStart(m, EnvPrefix + envID, x);
    ContainsPiece(a + (EnvPrefix + envID + x) + b, WsPrefix + wsID + y, c);
    ContainsStart(m, WsPrefix + wsID, y);
  }

  // ---------------------------------------------------------------------------
  // Newest first, at most ten

  /** The order sort.Slice leaves with the comparison Time.After: no entry is later than one before it. */
  predicate NewestFirst(tags: seq<TagInfo>) {
    forall i, j :: 0 <= i < j < |tags| ==> !After(tags[j].time, tags[i].time)
  }

  /** `x` placed before the first entry that is not later than it. */
  function Insert(sorted: seq<TagInfo>, x: TagInfo): (r: seq<TagInfo>)
    requires NewestFirst(sorted)
    ensures NewestFirst(r)
    ensures multiset(r) == multiset(sorted) + multiset{x}
  {
    if sorted == [] || !After(sorted[0].time, x.time) then
      InsertFront(sorted, x);
      [x] + sorted
    else
      var rest := Insert(sorted[1..], x);
      assert sorted == [sorted[0]] + sorted[1..];
      InsertBehind(sorted, x, rest);
      [sorted[0]] + rest
  }

  /** An entry no earlier than the first may go in front. */
  lemma InsertFront(sorted: seq<TagInfo>, x: TagInfo)
    requires NewestFirst(sorted)
    requires sorted == [] || !After(sorted[0].time, x.time)
    ensures NewestFirst([x] + sorted)
  {
    var r := [x] + sorted;
    forall i, j | 0 <= i < j < |r| ensures !After(r[j].time, r[i].time) {
      if i == 0 && j > 1 {
        assert !After(sorted[j - 1].time, sorted[0].time);
      }
    }
  }

  /** The first entry may stay in front of the others with an earlier entry inserted among them. */
  lemma InsertBehind(sorted: seq<TagInfo>, x: TagInfo, rest: seq<TagInfo>)
    requires NewestFirst(sorted) && sorted != [] && After(sorted[0].time, x.time)
    requires NewestFirst(rest) && multiset(rest) == multiset(sorted[1..]) + multiset{x}
    ensures NewestFirst([sorted[0]] + rest)
  {
    var r := [sorted[0]] + rest;
    forall i, j | 0 <= i < j < |r| ensures !After(r[j].time, r[i].time) {
      if i == 0 {
        assert r[j] in multiset(rest);
        if r[j] != x {
          assert r[j] in multiset(sorted[1..]);
          var k :| 1 <= k < |sorted| && sorted[k] == r[j];
        }
      }
    }
  }

  /** sort.Slice(filteredTags, newer first), on values: the entries, rearranged newest first. */
  method SortNewestFirst(tags: seq<TagInfo>) returns (r: seq<TagInfo>)
    ensures NewestFirst(r)
    ensures multiset(r) == multiset(tags)
  {
    r := [];
    for i := 0 to |tags|
      invariant NewestFirst(r)
      invariant multiset(r) == multiset(tags[..i])
    {
      assert tags[..i + 1] == tags[..i] + [tags[i]];
      r := Insert(r, tags[i]);
    }
    assert tags[..|tags|] == tags;
  }

  /**
   * listCmd.RunE from the tag iteration on: the entries shown are the newest
   * min(10, n) of the n listed tags, newest first; no tag left out is later
   * than one shown.
   */
  method List(refs: seq<TagRef>, envID: string, wsID: string) returns (shown: seq<TagInfo>)
    ensures NewestFirst(shown)
    ensures |shown| == if |Collected(refs, envID, wsID)| < ShowLimit then |Collected(refs, envID, wsID)| else ShowLimit
    ensures multiset(shown) <= multiset(Collected(refs, envID, wsID))
    ensures forall t, s :: t in multiset(Collected(refs, envID, wsID)) - multiset(shown) && s in shown ==> !After(t.time, s.time)
  {
    var tags := CollectTags(refs, envID, wsID);
    var sorted := SortNewestFirst(tags);
    var limit := ShowLimit;
    if |sorted| < limit {
      limit := |sorted|;
    }
    shown := sorted[..limit];
    assert |sorted| == |tags| by {
      assert |multiset(sorted)| == |multiset(tags)|;
    }
    NewestPrefix(sorted, limit);
  }

  /** The first `limit` entries of a newest-first sequence are newest first, and none of the others is later than one of them. */
  lemma NewestPrefix(sorted: seq<TagInfo>, limit: nat)
    requires NewestFirst(sorted) && limit <= |sorted|
    ensures NewestFirst(sorted[..limit])
    ensures multiset(sorted[..limit]) <= multiset(sorted)
    ensures forall t, s :: t in multiset(sorted) - multiset(sorted[..limit]) && s in sorted[..limit] ==> !After(t.time, s.time)
  {
    var shown := sorted[..limit];
    assert sorted == shown + sorted[limit..];
    assert multiset(sorted) == multiset(shown) + multiset(sorted[limit..]);
    forall t, s | t in multiset(sorted) - multiset(shown) && s in shown
      ensures !After(t.time, s.time)
    {
      assert t in sorted[limit..];
      var j :| limit <= j < |sorted| && sorted[j] == t;
      var i :| 0 <= i < limit && sorted[i] == s;
    }
  }

  // ---------------------------------------------------------------------------
  // Reading back what a backup wrote

  /** The tokens a backup's entries " env:<envID> ws:<wsID>" split into. */
  function WsTokens(envID: string, wss: seq<Workspace>): seq<string> {
    if wss == [] then []
    else WsTokens(envID, wss[..|wss| - 1]) + [EnvPrefix + envID, WsPrefix + wss[|wss| - 1].id]
  }

  function EnvTokens(envs: seq<Environment>): seq<string> {
    if envs == [] then []
    else EnvTokens(envs[..|envs| - 1]) + WsTokens(envs[|envs| - 1].id, envs[|envs| - 1].workspaces)
  }

  /** The environment id of every backed-up workspace, in backup order: each environment's id once per workspace. */
  function EnvIdsOf(envs: seq<Environment>): seq<string> {
    if envs == [] then []
    else
      var last := envs[|envs| - 1];
      EnvIdsOf(envs[..|envs| - 1]) + seq(|last.workspaces|, _ => last.id)
  }

  /** The id of every backed-up workspace, in backup order. */
  function WsIdsOf(envs: seq<Environment>): seq<string> {
    if envs == [] then []
    else
      var wss := envs[|envs| - 1].workspaces;
      WsIdsOf(envs[..|envs| - 1]) + seq(|wss|, k requires 0 <= k < |wss| => wss[k].id)
  }

  /** No environment or workspace id contains a space. */
  predicate NoSpaces(envs: seq<Environment>) {
    forall i :: 0 <= i < |envs| ==>
      ' ' !in envs[i].id && forall j :: 0 <= j < |envs[i].workspaces| ==> ' ' !in envs[i].workspaces[j].id
  }

  /** The start of every backup tag's message. */
  const TagHeader := B.TagMessage(B.CommitPrefix)

  /** Words that start with neither `e` nor `w` name no ids. */
  lemma {:induction false} NoIdWords(parts: seq<string>)
    requires forall k :: 0 <= k < |parts| ==> parts[k] == [] || (parts[k][0] != 'e' && parts[k][0] != 'w')
    ensures EnvIds(parts) == [] && WsIds(parts) == []
  {
    if parts != [] {
      var last := parts[|parts| - 1];
      NoIdWords(parts[..|parts| - 1]);
      if |last| >= |EnvPrefix| {
        assert last[..|EnvPrefix|][0] == last[0];
      }
      if |last| >= |WsPrefix| {
        assert last[..|WsPrefix|][0] == last[0];
      }
    }
  }

  /** A word that does not start with `e` or `w` and holds no space. */
  predicate PlainWord(w: string) {
    ' ' !in w && (w == [] || (w[0] != 'e' && w[0] != 'w'))
  }

  /** A plain word, a space and the rest split into the word and the rest's pieces. */
  lemma LeadingWord(w: string, rest: string)
    requires PlainWord(w)
    ensures Split(w + " " + rest, ' ') == [w] + Split(rest, ' ')
  {
    SplitAround(w, ' ', rest);
    SplitWithoutSeparator(w, ' ');
  }

  /** Three plain words joined by single spaces split back into the three words. */
  lemma ThreeWords(w0: string, w1: string, w2: string)
    requires PlainWord(w0) && PlainWord(w1) && PlainWord(w2)
    ensures Split(w0 + " " + (w1 + " " + w2), ' ') == [w0, w1, w2]
  {
    SplitWithoutSeparator(w2, ' ');
    LeadingWord(w1, w2);
    LeadingWord(w0, w1 + " " + w2);
  }

  /** Four plain words joined by single spaces split back into the four words. */
  lemma FourWords(w0: string, w1: string, w2: string, w3: string)
    requires PlainWord(w0) && PlainWord(w1) && PlainWord(w2) && PlainWord(w3)
    ensures Split(w0 + " " + (w1 + " " + (w2 + " " + w3)), ' ') == [w0, w1, w2, w3]
  {
    ThreeWords(w1, w2, w3);
    LeadingWord(w0, w1 + " " + (w2 + " " + w3));
  }

  /** Five plain words joined by single spaces split back into the five words. */
  lemma FiveWords(w0: string, w1: string, w2: string, w3: string, w4: string)
    requires PlainWord(w0) && PlainWord(w1) && PlainWord(w2) && PlainWord(w3) && PlainWord(w4)
    ensures Split(w0 + " " + (w1 + " " + (w2 + " " + (w3 + " " + w4))), ' ') == [w0, w1, w2, w3, w4]
  {
    FourWords(w1, w2, w3, w4);
    LeadingWord(w0, w1 + " " + (w2 + " " + (w3 + " " + w4)));
  }

  /** Six plain words joined by single spaces split back into the six words. */
  lemma SixWords(w0: string, w1: string, w2: string, w3: string, w4: string, w5: string)
    requires PlainWord(w0) && PlainWord(w1) && PlainWord(w2) && PlainWord(w3) && PlainWord(w4) && PlainWord(w5)
    ensures Split(w0 + " " + (w1 + " " + (w2 + " " + (w3 + " " + (w4 + " " + w5)))), ' ') == [w0, w1, w2, w3, w4, w5]
  {
    FiveWords(w1, w2, w3, w4, w5);
    LeadingWord(w0, w1 + " " + (w2 + " " + (w3 + " " + (w4 + " " + w5))));
  }

  /** Seven plain words joined by single spaces split back into the seven words. */
  lemma SevenWords(w0: string, w1: string, w2: string, w3: string, w4: string, w5: string, w6: string)
    requires PlainWord(w0) && PlainWord(w1) && PlainWord(w2) && PlainWord(w3) && PlainWord(w4) && PlainWord(w5) && PlainWord(w6)
    ensures Split(w0 + " " + (w1 + " " + (w2 + " " + (w3 + " " + (w4 + " " + (w5 + " " + w6))))), ' ')
         == [w0, w1, w2, w3, w4, w5, w6]
  {
    SixWords(w1, w2, w3, w4, w5, w6);
    LeadingWord(w0, w1 + " " + (w2 + " " + (w3 + " " + (w4 + " " + (w5 + " " + w6)))));
  }

  /** The header spelled out word by word. */
  lemma HeaderSpelled()
    ensures TagHeader == "Backup" + " " + ("tag" + " " + ("for" + " " + ("Backup" + " " + ("PlainID" + " " + ("configuration" + " " + "for:")))))
  {
    CommitPrefixSpelled();
    TagPrefixSpelled(B.CommitPrefix);
  }

  /** The commit message's prefix spelled out word by word. */
  lemma CommitPrefixSpelled()
    ensures B.CommitPrefix == "Backup" + " " + ("PlainID" + " " + ("configuration" + " " + "for:"))
  {
  }

  /** The tag message's leading words. */
  lemma TagPrefixSpelled(m: string)
    ensures B.TagMessage(m) == "Backup" + " " + ("tag" + " " + ("for" + " " + m))
  {
  }

  /** The words of the header. */
  const HeaderWords: seq<string> := ["Backup", "tag", "for", "Backup", "PlainID", "configuration", "for:"]

  /** The header's words are plain, so they name no ids. */
  lemma HeaderWordsPlain()
    ensures PlainWord("Backup") && PlainWord("tag") && PlainWord("for") && PlainWord("PlainID")
    ensures PlainWord("configuration") && PlainWord("for:")
    ensures EnvIds(HeaderWords) == [] && WsIds(HeaderWords) == []
  {
    NoIdWords(HeaderWords);
  }

  /** The header ("Backup tag for Backup PlainID configuration for:") names no ids. */
  lemma HeaderNamesNoIds()
    ensures EnvIds(Split(TagHeader, ' ')) == [] && WsIds(Split(TagHeader, ' ')) == []
  {
    HeaderSpelled();
    HeaderWordsPlain();
    SevenWords("Backup", "tag", "for", "Backup", "PlainID", "configuration", "for:");
  }

  /** An `env:` token is read as its id. */
  lemma EnvToken(id: string)
    ensures HasPrefix(EnvPrefix + id, EnvPrefix) && TrimPrefix(EnvPrefix + id, EnvPrefix) == id
  {
    assert (EnvPrefix + id)[..|EnvPrefix|] == EnvPrefix;
  }

  /** A `ws:` token is not an `env:` token and is read as its id. */
  lemma WsToken(id: string)
    ensures !HasPrefix(WsPrefix + id, EnvPrefix)
    ensures HasPrefix(WsPrefix + id, WsPrefix) && TrimPrefix(WsPrefix + id, WsPrefix) == id
  {
    assert (WsPrefix + id)[0] == 'w';
    assert (WsPrefix + id)[..|WsPrefix|] == WsPrefix;
  }

  lemma {:induction false} EnvIdsAppend(a: seq<string>, b: seq<string>)
    ensures EnvIds(a + b) == EnvIds(a) + EnvIds(b)
    ensures WsIds(a + b) == WsIds(a) + WsIds(b)
    decreases |b|
  {
    if b != [] {
      var init := b[..|b| - 1];
      assert (a + b)[..|a + b| - 1] == a + init;
      EnvIdsAppend(a, init);
    } else {
      assert a + b == a;
    }
  }

  /** One environment's tokens are read as its id once per workspace and the workspace ids. */
  lemma {:induction false} IdsOfWsTokens(envID: string, wss: seq<Workspace>)
    ensures EnvIds(WsTokens(envID, wss)) == seq(|wss|, _ => envID)
    ensures WsIds(WsTokens(envID, wss)) == seq(|wss|, k requires 0 <= k < |wss| => wss[k].id)
  {
    if wss != [] {
      var init := wss[..|wss| - 1];
      var w := wss[|wss| - 1].id;
      IdsOfWsTokens(envID, init);
      EnvIdsAppend(WsTokens(envID, init), [EnvPrefix + envID, WsPrefix + w]);
      EnvIdsAppend([EnvPrefix + envID], [WsPrefix + w]);
      EnvToken(envID);
      WsToken(w);
      assert [EnvPrefix + envID, WsPrefix + w][..1] == [EnvPrefix + envID];
      assert [EnvPrefix + envID] + [WsPrefix + w] == [EnvPrefix + envID, WsPrefix + w];
    }
  }

  /** One entry of the message is a space and its two tokens joined by a space. */
  lemma EntryTokens(envID: string, wsID: string)
    ensures " env:" + envID + " ws:" + wsID == [' '] + ((EnvPrefix + envID) + [' '] + (WsPrefix + wsID))
  {
  }

  /** The entries one environment adds to the message split into its tokens. */
  lemma {:induction false} SplitWsEntries(x: string, envID: string, wss: seq<Workspace>)
    requires ' ' !in envID && forall j :: 0 <= j < |wss| ==> ' ' !in wss[j].id
    ensures Split(x + B.WsEntries(envID, wss), ' ') == Split(x, ' ') + WsTokens(envID, wss)
  {
    if wss == [] {
      assert x + B.WsEntries(envID, wss) == x;
    } else {
      var n := |wss| - 1;
      var init := wss[..n];
      var y := x + B.WsEntries(envID, init);
      var a, b := EnvPrefix + envID, WsPrefix + wss[n].id;
      SplitWsEntries(x, envID, init);
      B.WsEntriesStep(envID, wss, n);
      assert wss[..n + 1] == wss;
      EntryTokens(envID, wss[n].id);
      AppendAssoc(x, B.WsEntries(envID, init), [' '] + (a + [' '] + b));
      AppendAssoc(y, [' '], a + [' '] + b);
      SplitAround(y, ' ', a + [' '] + b);
      SplitAround(a, ' ', b);
      SplitWithoutSeparator(a, ' ');
      SplitWithoutSeparator(b, ' ');
    }
  }

  /** The entries of all environments split into their tokens. */
  lemma {:induction false} SplitEnvEntries(x: string, envs: seq<Environment>)
    requires NoSpaces(envs)
    ensures Split(x + B.EnvEntries(envs), ' ') == Split(x, ' ') + EnvTokens(envs)
  {
    if envs == [] {
      assert x + B.EnvEntries(envs) == x;
    } else {
      var init := envs[..|envs| - 1];
      var last := envs[|envs| - 1];
      assert NoSpaces(init) by {
        forall i | 0 <= i < |init| ensures init[i] == envs[i] { }
      }
      assert ' ' !in last.id && forall j :: 0 <= j < |last.workspaces| ==> ' ' !in last.workspaces[j].id;
      var y := x + B.EnvEntries(init);
      SplitEnvEntries(x, init);
      SplitWsEntries(y, last.id, last.workspaces);
      AppendAssoc(x, B.EnvEntries(init), B.WsEntries(last.id, last.workspaces));
      AppendAssoc(Split(x, ' '), EnvTokens(init), WsTokens(last.id, last.workspaces));
    }
  }

  /** All environments' tokens are read as the environment and workspace ids of every backed-up workspace. */
  lemma {:induction false} IdsOfEnvTokens(envs: seq<Environment>)
    ensures EnvIds(EnvTokens(envs)) == EnvIdsOf(envs)
    ensures WsIds(EnvTokens(envs)) == WsIdsOf(envs)
  {
    if envs != [] {
      var init := envs[..|envs| - 1];
      var last := envs[|envs| - 1];
      IdsOfEnvTokens(init);
      EnvIdsAppend(EnvTokens(init), WsTokens(last.id, last.workspaces));
      IdsOfWsTokens(last.id, last.workspaces);
    }
  }

  /** The tag message is the header followed by the entries. */
  lemma TagMessageParts(envs: seq<Environment>)
    ensures B.TagMessage(B.CommitMessage(envs)) == TagHeader + B.EnvEntries(envs)
  {
    AppendAssoc("Backup tag for ", B.CommitPrefix, B.EnvEntries(envs));
  }

  /** After a header that names no ids, the entries' tokens are read as the ids of every backed-up workspace. */
  lemma TokensAfter(h: string, envs: seq<Environment>)
    requires NoSpaces(envs)
    requires EnvIds(Split(h, ' ')) == [] && WsIds(Split(h, ' ')) == []
    ensures EnvIds(Split(h + B.EnvEntries(envs), ' ')) == EnvIdsOf(envs)
    ensures WsIds(Split(h + B.EnvEntries(envs), ' ')) == WsIdsOf(envs)
  {
    SplitEnvEntries(h, envs);
    EnvIdsAppend(Split(h, ' '), EnvTokens(envs));
    IdsOfEnvTokens(envs);
  }

  /**
   * Listing a backup's tag recovers what the backup covered: the `env:` tokens
   * of its message are the environment id of every backed-up workspace and the
   * `ws:` tokens are the workspace ids, in backup order, as long as no id
   * contains a space.
   */
  lemma RoundTrip(envs: seq<Environment>)
    requires NoSpaces(envs)
    ensures EnvIds(Split(B.TagMessage(B.CommitMessage(envs)), ' ')) == EnvIdsOf(envs)
    ensures WsIds(Split(B.TagMessage(B.CommitMessage(envs)), ' ')) == WsIdsOf(envs)
  {
    TagMessageParts(envs);
    HeaderNamesNoIds();
    TokensAfter(TagHeader, envs);
  }
}
