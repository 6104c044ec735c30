/** The main window's pair list (`GetDrawFolders`): which pairs pass the search
    text, which folders are built, in what order, and how the pairs inside a
    folder are sorted. A pair is described by the facts the folder rules read;
    the tag handler by its sorted tag list and the (UID, tag) assignments. */
module DrawFolders {
  import opened Text
  import opened Seqs
  import opened Wrappers

  /** A pair and the syncshells (by GID) it is seen through. */
  datatype PairView = PairView(
    uid: string, aliasOrUid: string, note: Option<string>, playerName: Option<string>,
    isVisible: bool, isOnline: bool, isPaused: bool, isDirectlyPaired: bool, isOneSidedPair: bool,
    groups: seq<string>)

  /** A member's flags within a syncshell. */
  datatype MemberInfo = MemberInfo(isModerator: bool, isPinned: bool)

  /** A syncshell: its GID, its alias-or-GID, its owner and its members' flags. */
  datatype Group = Group(gid: string, aliasOrGid: string, ownerUid: string, members: map<string, MemberInfo>)

  /** The configuration switches the folder rules read. */
  datatype FolderConfig = FolderConfig(
    showVisibleUsersSeparately: bool, showSyncshellUsersInVisible: bool, groupUpSyncshells: bool,
    showOfflineUsersSeparately: bool, showSyncshellOfflineUsersSeparately: bool,
    showCharacterNameInsteadOfNotesForVisible: bool, preferNotesOverNamesForVisible: bool)

  /** The folder tags: the built-in ones and the user's own. */
  datatype FolderTag = VisibleTag | OnlineTag | AllTag | OfflineTag | OfflineSyncshellTag | UnpairedTag
                     | UserTag(name: string)

  /** A syncshell folder: the syncshell, the pairs it shows and all its pairs. */
  datatype SyncshellFolder = SyncshellFolder(group: Group, shown: seq<PairView>, all: seq<PairView>)

  /** A folder of the list: a tag folder, one syncshell folder, or the folder
      that groups all syncshell folders. */
  datatype Folder =
    | TagFolder(tag: FolderTag, shown: seq<PairView>, all: seq<PairView>)
    | Syncshell(folder: SyncshellFolder)
    | GroupedSyncshells(folders: seq<SyncshellFolder>)

  /** The search text: an empty filter keeps every pair; otherwise it must
      occur, ignoring case, in the alias-or-UID, the note or the player name. */
  predicate MatchesFilter(filter: string, p: PairView)
  {
    filter == []
    || ContainsIgnoreCase(p.aliasOrUid, filter)
    || (p.note.Some? && ContainsIgnoreCase(p.note.value, filter))
    || (p.playerName.Some? && ContainsIgnoreCase(p.playerName.value, filter))
  }

  function FilterFn(filter: string): PairView -> bool
  {
    p => MatchesFilter(filter, p)
  }

  /** `filteredPairs`: the pairs that pass the search text, in their order. */
  function FilteredPairs(pairs: seq<PairView>, filter: string): seq<PairView>
  {
    Filter(pairs, FilterFn(filter))
  }

  /** A pair survives the search exactly when it matches it, and an empty
      search keeps the whole list. */
  lemma {:induction false} FilteredPairsSpec(pairs: seq<PairView>, filter: string, p: PairView)
    ensures p in FilteredPairs(pairs, filter) <==> p in pairs && MatchesFilter(filter, p)
    ensures filter == [] ==> FilteredPairs(pairs, filter) == pairs
  {
    FilterMembership(pairs, FilterFn(filter), p);
    if filter == [] {
      FilterAll(pairs, FilterFn(filter));
    }
  }

  /** `AlphabeticalSort`: the name a pair is sorted by (null when the preferred
      note is missing). */
  function DisplayName(cfg: FolderConfig, p: PairView): (r: Option<string>)
    ensures r.None? <==> cfg.showCharacterNameInsteadOfNotesForVisible && cfg.preferNotesOverNamesForVisible
                         && p.playerName.Some? && p.playerName.value != [] && p.note.None?
    ensures r == p.note || r == p.playerName || r == Some(p.aliasOrUid)
    ensures p.note.Some? && (cfg.preferNotesOverNamesForVisible || !cfg.showCharacterNameInsteadOfNotesForVisible) ==> r == p.note
  {
    if cfg.showCharacterNameInsteadOfNotesForVisible && p.playerName.Some? && p.playerName.value != [] then
      (if cfg.preferNotesOverNamesForVisible then p.note else p.playerName)
    else if p.note.Some? then p.note
    else Some(p.aliasOrUid)
  }

  /** `StringComparer.OrdinalIgnoreCase` as a key: null first, then the
      upper-cased character codes in lexicographic order. */
  function NameKey(name: Option<string>): (k: seq<int>)
    ensures |k| >= 1
    ensures k[0] == if name.None? then 0 else 1
  {
    if name.None? then [0] else [1] + seq(|name.value|, i requires 0 <= i < |name.value| => UpperChar(name.value[i]) as int)
  }

  function Flag(b: bool): int
  {
    if b then 0 else 1
  }

  /** `BasicSortedDictionary`'s order: visible first, then online, then by
      display name ignoring case. */
  function BasicKey(cfg: FolderConfig, p: PairView): seq<int>
  {
    [Flag(p.isVisible), Flag(p.isOnline)] + NameKey(DisplayName(cfg, p))
  }

  function BasicKeyFn(cfg: FolderConfig): PairView -> seq<int>
  {
    p => BasicKey(cfg, p)
  }

  function BasicSorted(cfg: FolderConfig, pairs: seq<PairView>): (r: seq<PairView>)
    ensures multiset(r) == multiset(pairs)
  {
    SortByKey(pairs, BasicKeyFn(cfg))
  }

  /** A member's rank in a syncshell folder: owner 0, moderator 1, pinned 2,
      other visible 3, everyone else 4. */
  function MemberRank(g: Group, p: PairView): (r: int)
    ensures 0 <= r <= 4
    ensures r == 0 <==> p.uid == g.ownerUid
  {
    if p.uid == g.ownerUid then 0
    else if p.uid in g.members && g.members[p.uid].isModerator then 1
    else if p.uid in g.members && g.members[p.uid].isPinned then 2
    else if p.isVisible then 3
    else 4
  }

  /** A syncshell folder's order: online first, then rank, then display name. */
  function GroupKey(cfg: FolderConfig, g: Group, p: PairView): seq<int>
  {
    [Flag(p.isOnline), MemberRank(g, p)] + NameKey(DisplayName(cfg, p))
  }

  function GroupKeyFn(cfg: FolderConfig, g: Group): PairView -> seq<int>
  {
    p => GroupKey(cfg, g, p)
  }

  /** The two-flag head of a key orders first; the name decides only between
      equal heads. */
  lemma {:induction false} KeyHead(a: int, b: int, c: int, d: int, s: seq<int>, t: seq<int>)
    requires LexLe([a, b] + s, [c, d] + t)
    ensures a <= c && (a == c ==> b <= d) && (a == c && b == d ==> LexLe(s, t))
  {
    LexLeAppend([a, b], s, [c, d], t);
  }

  /** A sorted folder lists each pair once as often as it was given, visible
      pairs before the others, among equally visible ones online before
      offline, and among those by display name ignoring case. */
  lemma {:induction false} BasicSortedOrder(cfg: FolderConfig, pairs: seq<PairView>)
    ensures forall i, j :: 0 <= i < j < |BasicSorted(cfg, pairs)| ==>
      var p, q := BasicSorted(cfg, pairs)[i], BasicSorted(cfg, pairs)[j];
      (q.isVisible ==> p.isVisible)
      && (p.isVisible == q.isVisible && q.isOnline ==> p.isOnline)
      && (p.isVisible == q.isVisible && p.isOnline == q.isOnline ==>
            LexLe(NameKey(DisplayName(cfg, p)), NameKey(DisplayName(cfg, q))))
  {
    var key := BasicKeyFn(cfg);
    SortByKeySorted(pairs, key);
    var r := BasicSorted(cfg, pairs);
    forall i, j | 0 <= i < j < |r|
      ensures (r[j].isVisible ==> r[i].isVisible)
      && (r[i].isVisible == r[j].isVisible && r[j].isOnline ==> r[i].isOnline)
      && (r[i].isVisible == r[j].isVisible && r[i].isOnline == r[j].isOnline ==>
            LexLe(NameKey(DisplayName(cfg, r[i])), NameKey(DisplayName(cfg, r[j]))))
    {
      assert LexLe(key(r[i]), key(r[j]));
      KeyHead(Flag(r[i].isVisible), Flag(r[i].isOnline), Flag(r[j].isVisible), Flag(r[j].isOnline),
              NameKey(DisplayName(cfg, r[i])), NameKey(DisplayName(cfg, r[j])));
    }
  }

  function GroupSorted(cfg: FolderConfig, g: Group, pairs: seq<PairView>): (r: seq<PairView>)
    ensures multiset(r) == multiset(pairs)
  {
    SortByKey(pairs, GroupKeyFn(cfg, g))
  }

  /** A syncshell folder lists online members first, then by rank (owner,
      moderators, pinned, visible, others), then by display name. */
  lemma {:induction false} GroupSortedOrder(cfg: FolderConfig, g: Group, pairs: seq<PairView>)
    ensures forall i, j :: 0 <= i < j < |GroupSorted(cfg, g, pairs)| ==>
      var p, q := GroupSorted(cfg, g, pairs)[i], GroupSorted(cfg, g, pairs)[j];
      (q.isOnline ==> p.isOnline)
      && (p.isOnline == q.isOnline ==> MemberRank(g, p) <= MemberRank(g, q))
      && (p.isOnline == q.isOnline && MemberRank(g, p) == MemberRank(g, q) ==>
            LexLe(NameKey(DisplayName(cfg, p)), NameKey(DisplayName(cfg, q))))
  {
    var key := GroupKeyFn(cfg, g);
    SortByKeySorted(pairs, key);
    var r := GroupSorted(cfg, g, pairs);
    forall i, j | 0 <= i < j < |r|
      ensures (r[j].isOnline ==> r[i].isOnline)
      && (r[i].isOnline == r[j].isOnline ==> MemberRank(g, r[i]) <= MemberRank(g, r[j]))
      && (r[i].isOnline == r[j].isOnline && MemberRank(g, r[i]) == MemberRank(g, r[j]) ==>
            LexLe(NameKey(DisplayName(cfg, r[i])), NameKey(DisplayName(cfg, r[j]))))
    {
      assert LexLe(key(r[i]), key(r[j]));
      KeyHead(Flag(r[i].isOnline), MemberRank(g, r[i]), Flag(r[j].isOnline), MemberRank(g, r[j]),
              NameKey(DisplayName(cfg, r[i])), NameKey(DisplayName(cfg, r[j])));
    }
  }

  /** The selection rule of each kind of folder. */
  datatype Selector =
    | VisibleUsers | GroupUsers(gid: string) | TagUsers(tag: string) | NotTaggedUsers
    | OfflineUsers | OfflineSyncshellUsers | OneSidedUsers

  /** `HasTag` on the tag handler. */
  predicate HasTag(tagged: set<(string, string)>, uid: string, tag: string)
  {
    (uid, tag) in tagged
  }

  /** `HasAnyTag` on the tag handler. */
  predicate HasAnyTag(tagged: set<(string, string)>, uid: string)
  {
    exists e :: e in tagged && e.0 == uid
  }

  /** The folder predicates `FilterVisibleUsers`, `FilterGroupUsers`,
      `FilterTagusers`, `FilterNotTaggedUsers`, `FilterOfflineUsers`,
      `FilterOfflineSyncshellUsers` and the one-sided test. */
  predicate Selects(cfg: FolderConfig, tagged: set<(string, string)>, sel: Selector, p: PairView)
  {
    match sel
    case VisibleUsers => p.isVisible && (cfg.showSyncshellUsersInVisible || p.isDirectlyPaired)
    case GroupUsers(gid) => gid in p.groups
    case TagUsers(tag) => p.isDirectlyPaired && !p.isOneSidedPair && HasTag(tagged, p.uid, tag)
    case NotTaggedUsers => p.isDirectlyPaired && !p.isOneSidedPair && !HasAnyTag(tagged, p.uid)
    case OfflineUsers =>
      ((p.isDirectlyPaired && cfg.showSyncshellOfflineUsersSeparately) || !cfg.showSyncshellOfflineUsersSeparately)
      && (!p.isOneSidedPair || p.groups != []) && !p.isOnline && !p.isPaused
    case OfflineSyncshellUsers => !p.isDirectlyPaired && !p.isOnline && !p.isPaused
    case OneSidedUsers => p.isOneSidedPair
  }

  /** `FilterOnlineOrPausedSelf`: online, or offline pairs are not shown
      separately, or paused. */
  predicate OnlineOrPaused(cfg: FolderConfig, p: PairView)
  {
    p.isOnline || !cfg.showOfflineUsersSeparately || p.isPaused
  }

  /** The test a folder applies to the searched pairs: its own rule, and for
      syncshell, tag and untagged folders also `FilterOnlineOrPausedSelf`. */
  predicate Shows(cfg: FolderConfig, tagged: set<(string, string)>, sel: Selector, p: PairView)
  {
    Selects(cfg, tagged, sel, p)
    && (sel.GroupUsers? || sel.TagUsers? || sel == NotTaggedUsers ==> OnlineOrPaused(cfg, p))
  }

  function SelectFn(cfg: FolderConfig, tagged: set<(string, string)>, sel: Selector): PairView -> bool
  {
    p => Selects(cfg, tagged, sel, p)
  }

  function ShowFn(cfg: FolderConfig, tagged: set<(string, string)>, sel: Selector): PairView -> bool
  {
    p => Shows(cfg, tagged, sel, p)
  }

  /** All the pairs a folder holds, whatever the search. */
  function AllOf(cfg: FolderConfig, tagged: set<(string, string)>, sel: Selector, pairs: seq<PairView>): seq<PairView>
  {
    Filter(pairs, SelectFn(cfg, tagged, sel))
  }

  /** The searched pairs a tag folder shows, sorted by `BasicSortedDictionary`. */
  function ShownOf(cfg: FolderConfig, tagged: set<(string, string)>, sel: Selector, pairs: seq<PairView>,
                   filter: string): seq<PairView>
  {
    BasicSorted(cfg, Filter(FilteredPairs(pairs, filter), ShowFn(cfg, tagged, sel)))
  }

  function MakeTagFolder(tag: FolderTag, cfg: FolderConfig, tagged: set<(string, string)>, sel: Selector,
                         pairs: seq<PairView>, filter: string): Folder
  {
    TagFolder(tag, ShownOf(cfg, tagged, sel, pairs, filter), AllOf(cfg, tagged, sel, pairs))
  }

  function MakeGroupFolder(cfg: FolderConfig, tagged: set<(string, string)>, g: Group, pairs: seq<PairView>,
                           filter: string): SyncshellFolder
  {
    var sel := GroupUsers(g.gid);
    SyncshellFolder(g, GroupSorted(cfg, g, Filter(FilteredPairs(pairs, filter), ShowFn(cfg, tagged, sel))),
                    AllOf(cfg, tagged, sel, pairs))
  }

  function GroupNameKey(g: Group): seq<int>
  {
    NameKey(Some(g.aliasOrGid))
  }

  /** The syncshells, ordered by alias-or-GID ignoring case. */
  function SortedGroups(groups: seq<Group>): (r: seq<Group>)
    ensures multiset(r) == multiset(groups)
  {
    SortByKey(groups, GroupNameKey)
  }

  /** Which folder a position of the list holds: a tag folder with its rule,
      one syncshell's folder, or the folder grouping the sorted syncshells. */
  datatype FolderSpec =
    | TagSpec(tag: FolderTag, sel: Selector)
    | GroupSpec(group: Group)
    | GroupedSpec(groups: seq<Group>)

  /** The visible folder, when visible pairs are shown separately. */
  function VisiblePlan(cfg: FolderConfig): (r: seq<FolderSpec>)
    ensures |r| == if cfg.showVisibleUsersSeparately then 1 else 0
    ensures forall i :: 0 <= i < |r| ==> r[i] == TagSpec(VisibleTag, VisibleUsers)
  {
    if cfg.showVisibleUsersSeparately then [TagSpec(VisibleTag, VisibleUsers)] else []
  }

  /** The syncshell folders in name order, or the one folder grouping them. */
  function SyncshellPlan(cfg: FolderConfig, groups: seq<Group>): (r: seq<FolderSpec>)
    ensures |r| == if cfg.groupUpSyncshells then 1 else |groups|
    ensures cfg.groupUpSyncshells ==> r[0] == GroupedSpec(SortedGroups(groups))
    ensures !cfg.groupUpSyncshells ==> forall i :: 0 <= i < |groups| ==> r[i] == GroupSpec(SortedGroups(groups)[i])
  {
    var sorted := SortedGroups(groups);
    assert |sorted| == |multiset(sorted)| == |groups|;
    if cfg.groupUpSyncshells then [GroupedSpec(sorted)]
    else seq(|sorted|, i requires 0 <= i < |sorted| => GroupSpec(sorted[i]))
  }

  /** One folder per tag, in the tag handler's order. */
  function TagPlan(tags: seq<string>): (r: seq<FolderSpec>)
    ensures |r| == |tags|
    ensures forall i :: 0 <= i < |tags| ==> r[i] == TagSpec(UserTag(tags[i]), TagUsers(tags[i]))
  {
    seq(|tags|, i requires 0 <= i < |tags| => TagSpec(UserTag(tags[i]), TagUsers(tags[i])))
  }

  /** The untagged direct pairs, titled online when offline pairs are split off. */
  function UntaggedSpec(cfg: FolderConfig): FolderSpec
  {
    TagSpec(if cfg.showOfflineUsersSeparately then OnlineTag else AllTag, NotTaggedUsers)
  }

  /** The offline folder and, when syncshell users are split off too, the
      offline syncshell folder. */
  function OfflinePlan(cfg: FolderConfig): (r: seq<FolderSpec>)
    ensures |r| == if !cfg.showOfflineUsersSeparately then 0
                   else if cfg.showSyncshellOfflineUsersSeparately then 2 else 1
    ensures |r| >= 1 ==> r[0] == TagSpec(OfflineTag, OfflineUsers)
    ensures |r| == 2 ==> r[1] == TagSpec(OfflineSyncshellTag, OfflineSyncshellUsers)
  {
    if !cfg.showOfflineUsersSeparately then []
    else [TagSpec(OfflineTag, OfflineUsers)]
         + (if cfg.showSyncshellOfflineUsersSeparately then [TagSpec(OfflineSyncshellTag, OfflineSyncshellUsers)] else [])
  }

  /** The order of `GetDrawFolders`: the parts above, then the unpaired folder. */
  function Plan(cfg: FolderConfig, groups: seq<Group>, tags: seq<string>): seq<FolderSpec>
  {
    VisiblePlan(cfg) + SyncshellPlan(cfg, groups) + TagPlan(tags) + [UntaggedSpec(cfg)]
    + OfflinePlan(cfg) + [TagSpec(UnpairedTag, OneSidedUsers)]
  }

  /** The folder a position holds, filled from the pairs and the search text. */
  function Build(cfg: FolderConfig, tagged: set<(string, string)>, pairs: seq<PairView>, filter: string,
                 s: FolderSpec): Folder
  {
    match s
    case TagSpec(tag, sel) => MakeTagFolder(tag, cfg, tagged, sel, pairs, filter)
    case GroupSpec(g) => Syncshell(MakeGroupFolder(cfg, tagged, g, pairs, filter))
    case GroupedSpec(gs) =>
      GroupedSyncshells(seq(|gs|, i requires 0 <= i < |gs| => MakeGroupFolder(cfg, tagged, gs[i], pairs, filter)))
  }

  /** `GetDrawFolders`: each position of `Plan` built into its folder. */
  function GetDrawFolders(cfg: FolderConfig, pairs: seq<PairView>, groups: seq<Group>, tags: seq<string>,
                          tagged: set<(string, string)>, filter: string): (r: seq<Folder>)
    ensures |r| == |Plan(cfg, groups, tags)|
    ensures forall i :: 0 <= i < |r| ==> r[i] == Build(cfg, tagged, pairs, filter, Plan(cfg, groups, tags)[i])
  {
    var plan := Plan(cfg, groups, tags);
    seq(|plan|, i requires 0 <= i < |plan| => Build(cfg, tagged, pairs, filter, plan[i]))
  }

  /** Every pair a folder shows is one of the folder's pairs and matches the
      search, and `all` holds exactly the pairs that satisfy the folder's rule. */
  lemma {:induction false} TagFolderContents(tag: FolderTag, cfg: FolderConfig, tagged: set<(string, string)>,
                                             sel: Selector, pairs: seq<PairView>, filter: string, p: PairView)
    ensures var f := MakeTagFolder(tag, cfg, tagged, sel, pairs, filter);
      (p in f.shown <==> p in pairs && MatchesFilter(filter, p) && Shows(cfg, tagged, sel, p))
      && (p in f.all <==> p in pairs && Selects(cfg, tagged, sel, p))
  {
    var searched := FilteredPairs(pairs, filter);
    var chosen := Filter(searched, ShowFn(cfg, tagged, sel));
    FilteredPairsSpec(pairs, filter, p);
    FilterMembership(searched, ShowFn(cfg, tagged, sel), p);
    FilterMembership(pairs, SelectFn(cfg, tagged, sel), p);
    assert multiset(BasicSorted(cfg, chosen)) == multiset(chosen);
    assert p in BasicSorted(cfg, chosen) <==> p in multiset(chosen);
  }

  /** The same for a syncshell folder: it shows the searched members that are
      online, paused, or not split off as offline. */
  lemma {:induction false} GroupFolderContents(cfg: FolderConfig, tagged: set<(string, string)>, g: Group,
                                               pairs: seq<PairView>, filter: string, p: PairView)
    ensures var f := MakeGroupFolder(cfg, tagged, g, pairs, filter);
      (p in f.shown <==> p in pairs && MatchesFilter(filter, p) && g.gid in p.groups && OnlineOrPaused(cfg, p))
      && (p in f.all <==> p in pairs && g.gid in p.groups)
  {
    var sel := GroupUsers(g.gid);
    var searched := FilteredPairs(pairs, filter);
    var chosen := Filter(searched, ShowFn(cfg, tagged, sel));
    FilteredPairsSpec(pairs, filter, p);
    FilterMembership(searched, ShowFn(cfg, tagged, sel), p);
    FilterMembership(pairs, SelectFn(cfg, tagged, sel), p);
    assert multiset(GroupSorted(cfg, g, chosen)) == multiset(chosen);
    assert p in GroupSorted(cfg, g, chosen) <==> p in multiset(chosen);
  }

  /** The visible folder holds only visible pairs, and only direct pairs unless
      syncshell users are allowed in it. */
  lemma {:induction false} VisibleFolderRule(cfg: FolderConfig, tagged: set<(string, string)>, pairs: seq<PairView>, filter: string,
                          p: PairView)
    requires p in MakeTagFolder(VisibleTag, cfg, tagged, VisibleUsers, pairs, filter).all
    ensures p.isVisible && (cfg.showSyncshellUsersInVisible || p.isDirectlyPaired)
  {
    TagFolderContents(VisibleTag, cfg, tagged, VisibleUsers, pairs, filter, p);
  }

  /** The number of folders: one visible folder when enabled, the syncshell
      folders (or the one grouping them), one per tag, the untagged folder,
      up to two offline folders, and the unpaired folder. */
  lemma {:induction false} FolderCount(cfg: FolderConfig, pairs: seq<PairView>, groups: seq<Group>,
                    tags: seq<string>, tagged: set<(string, string)>, filter: string)
    ensures |GetDrawFolders(cfg, pairs, groups, tags, tagged, filter)| ==
      (if cfg.showVisibleUsersSeparately then 1 else 0) + (if cfg.groupUpSyncshells then 1 else |groups|)
      + |tags| + 1 + (if !cfg.showOfflineUsersSeparately then 0 else if cfg.showSyncshellOfflineUsersSeparately then 2 else 1)
      + 1
  {
  }

  /** Where the syncshell folders start: after the visible folder, when there
      is one. */
  function SyncshellsStart(cfg: FolderConfig): (n: nat)
    ensures n == |VisiblePlan(cfg)|
  {
    if cfg.showVisibleUsersSeparately then 1 else 0
  }

  /** Where the tag folders start: after the syncshell folders, or after the
      one folder grouping them. */
  function TagsStart(cfg: FolderConfig, groups: seq<Group>): (n: nat)
    ensures n == |VisiblePlan(cfg)| + |SyncshellPlan(cfg, groups)|
  {
    SyncshellsStart(cfg) + (if cfg.groupUpSyncshells then 1 else |groups|)
  }

  /** Plan positions: the visible folder first, then the syncshell folders, the
      tag folders, the untagged folder, the offline folders and the unpaired
      one, in that order. */
  lemma {:induction false} PlanVisibleAt(cfg: FolderConfig, groups: seq<Group>, tags: seq<string>)
    requires cfg.showVisibleUsersSeparately
    ensures Plan(cfg, groups, tags)[0] == TagSpec(VisibleTag, VisibleUsers)
  {
    var ab := VisiblePlan(cfg) + SyncshellPlan(cfg, groups);
    var abc := ab + TagPlan(tags);
    var abcu := abc + [UntaggedSpec(cfg)];
    var abcud := abcu + OfflinePlan(cfg);
    assert Plan(cfg, groups, tags) == abcud + [TagSpec(UnpairedTag, OneSidedUsers)];
    assert ab[0] == VisiblePlan(cfg)[0];
    assert abc[0] == ab[0];
    assert abcu[0] == abc[0];
    assert abcud[0] == abcu[0];
  }

  lemma {:induction false} PlanSyncshellAt(cfg: FolderConfig, groups: seq<Group>, tags: seq<string>, i: int)
    requires 0 <= i < |SyncshellPlan(cfg, groups)|
    ensures Plan(cfg, groups, tags)[SyncshellsStart(cfg) + i] == SyncshellPlan(cfg, groups)[i]
  {
    SecondPartAt(VisiblePlan(cfg), SyncshellPlan(cfg, groups), TagPlan(tags), [UntaggedSpec(cfg)],
                 OfflinePlan(cfg), [TagSpec(UnpairedTag, OneSidedUsers)], i);
  }

  /** Indexing into the second of six concatenated parts. */
  lemma {:induction false} SecondPartAt<T>(a: seq<T>, b: seq<T>, c: seq<T>, d: seq<T>, e: seq<T>, f: seq<T>, i: int)
    requires 0 <= i < |b|
    ensures (a + b + c + d + e + f)[|a| + i] == b[i]
  {
    var ab := a + b;
    var j := |a| + i;
    assert ab[j] == b[i];
    assert (ab + c)[j] == ab[j];
    assert (ab + c + d)[j] == ab[j];
    assert (ab + c + d + e)[j] == ab[j];
  }

  lemma {:induction false} PlanTagAt(cfg: FolderConfig, groups: seq<Group>, tags: seq<string>, i: int)
    requires 0 <= i < |tags|
    ensures Plan(cfg, groups, tags)[TagsStart(cfg, groups) + i] == TagSpec(UserTag(tags[i]), TagUsers(tags[i]))
  {
    var ab := VisiblePlan(cfg) + SyncshellPlan(cfg, groups);
    var abc := ab + TagPlan(tags);
    var abcu := abc + [UntaggedSpec(cfg)];
    var abcud := abcu + OfflinePlan(cfg);
    var j := |ab| + i;
    assert Plan(cfg, groups, tags) == abcud + [TagSpec(UnpairedTag, OneSidedUsers)];
    assert abc[j] == TagPlan(tags)[i];
    assert abcu[j] == abc[j];
    assert abcud[j] == abcu[j];
  }

  lemma {:induction false} PlanUntaggedAt(cfg: FolderConfig, groups: seq<Group>, tags: seq<string>)
    ensures Plan(cfg, groups, tags)[TagsStart(cfg, groups) + |tags|] == UntaggedSpec(cfg)
  {
    var ab := VisiblePlan(cfg) + SyncshellPlan(cfg, groups);
    var abc := ab + TagPlan(tags);
    var abcu := abc + [UntaggedSpec(cfg)];
    var abcud := abcu + OfflinePlan(cfg);
    var j := |abc|;
    assert Plan(cfg, groups, tags) == abcud + [TagSpec(UnpairedTag, OneSidedUsers)];
    assert abcu[j] == UntaggedSpec(cfg);
    assert abcud[j] == abcu[j];
  }

  lemma {:induction false} PlanOfflineAt(cfg: FolderConfig, groups: seq<Group>, tags: seq<string>, i: int)
    requires 0 <= i < |OfflinePlan(cfg)|
    ensures Plan(cfg, groups, tags)[TagsStart(cfg, groups) + |tags| + 1 + i] == OfflinePlan(cfg)[i]
  {
    var ab := VisiblePlan(cfg) + SyncshellPlan(cfg, groups);
    var abc := ab + TagPlan(tags);
    var abcu := abc + [UntaggedSpec(cfg)];
    var abcud := abcu + OfflinePlan(cfg);
    var j := |abcu| + i;
    assert Plan(cfg, groups, tags) == abcud + [TagSpec(UnpairedTag, OneSidedUsers)];
    assert abcud[j] == OfflinePlan(cfg)[i];
  }

  lemma {:induction false} PlanUnpairedLast(cfg: FolderConfig, groups: seq<Group>, tags: seq<string>)
    ensures Plan(cfg, groups, tags)[|Plan(cfg, groups, tags)| - 1] == TagSpec(UnpairedTag, OneSidedUsers)
  {
    var abcud := VisiblePlan(cfg) + SyncshellPlan(cfg, groups) + TagPlan(tags) + [UntaggedSpec(cfg)] + OfflinePlan(cfg);
    assert Plan(cfg, groups, tags) == abcud + [TagSpec(UnpairedTag, OneSidedUsers)];
  }

  /** The visible folder comes first when enabled. */
  lemma {:induction false} FolderOrderVisible(cfg: FolderConfig, pairs: seq<PairView>, groups: seq<Group>,
                                              tags: seq<string>, tagged: set<(string, string)>, filter: string)
    requires cfg.showVisibleUsersSeparately
    ensures GetDrawFolders(cfg, pairs, groups, tags, tagged, filter)[0]
            == MakeTagFolder(VisibleTag, cfg, tagged, VisibleUsers, pairs, filter)
  {
    var p := Plan(cfg, groups, tags);
    PlanVisibleAt(cfg, groups, tags);
    assert p[0] == TagSpec(VisibleTag, VisibleUsers);
  }

  /** Unless they are grouped, the syncshells follow with one folder each, in
      alias-or-GID order: the `i`-th after the visible folder is the `i`-th
      syncshell's. */
  lemma {:induction false} FolderOrderSyncshells(cfg: FolderConfig, pairs: seq<PairView>, groups: seq<Group>,
                                                 tags: seq<string>, tagged: set<(string, string)>, filter: string,
                                                 i: int)
    requires !cfg.groupUpSyncshells && 0 <= i < |groups|
    ensures GetDrawFolders(cfg, pairs, groups, tags, tagged, filter)[SyncshellsStart(cfg) + i]
            == Syncshell(MakeGroupFolder(cfg, tagged, SortedGroups(groups)[i], pairs, filter))
  {
    var p := Plan(cfg, groups, tags);
    PlanSyncshellAt(cfg, groups, tags, i);
    assert p[SyncshellsStart(cfg) + i] == GroupSpec(SortedGroups(groups)[i]);
  }

  /** Grouped syncshells take one folder after the visible one, holding a
      folder per syncshell in alias-or-GID order. */
  lemma {:induction false} FolderOrderGrouped(cfg: FolderConfig, pairs: seq<PairView>, groups: seq<Group>,
                                              tags: seq<string>, tagged: set<(string, string)>, filter: string)
    requires cfg.groupUpSyncshells
    ensures var f := GetDrawFolders(cfg, pairs, groups, tags, tagged, filter)[SyncshellsStart(cfg)];
      f.GroupedSyncshells? && |f.folders| == |groups|
      && forall i :: 0 <= i < |groups| ==>
           f.folders[i] == MakeGroupFolder(cfg, tagged, SortedGroups(groups)[i], pairs, filter)
  {
    var r := GetDrawFolders(cfg, pairs, groups, tags, tagged, filter);
    var p := Plan(cfg, groups, tags);
    var v := SyncshellsStart(cfg);
    var sorted := SortedGroups(groups);
    assert |sorted| == |multiset(groups)|;
    PlanSyncshellAt(cfg, groups, tags, 0);
    assert p[v] == GroupedSpec(sorted);
    var folders := seq(|sorted|, i requires 0 <= i < |sorted| => MakeGroupFolder(cfg, tagged, sorted[i], pairs, filter));
    assert r[v] == Build(cfg, tagged, pairs, filter, p[v]) == GroupedSyncshells(folders);
    forall i | 0 <= i < |groups|
      ensures r[v].folders[i] == MakeGroupFolder(cfg, tagged, sorted[i], pairs, filter)
    {
      assert folders[i] == MakeGroupFolder(cfg, tagged, sorted[i], pairs, filter);
    }
  }

  /** After the syncshells come the tag folders in the tag handler's order:
      the `i`-th of them is the folder of the `i`-th tag. */
  lemma {:induction false} FolderOrderTags(cfg: FolderConfig, pairs: seq<PairView>, groups: seq<Group>,
                                           tags: seq<string>, tagged: set<(string, string)>, filter: string, i: int)
    requires 0 <= i < |tags|
    ensures GetDrawFolders(cfg, pairs, groups, tags, tagged, filter)[TagsStart(cfg, groups) + i]
            == MakeTagFolder(UserTag(tags[i]), cfg, tagged, TagUsers(tags[i]), pairs, filter)
  {
    var p := Plan(cfg, groups, tags);
    PlanTagAt(cfg, groups, tags, i);
    assert p[TagsStart(cfg, groups) + i] == TagSpec(UserTag(tags[i]), TagUsers(tags[i]));
  }

  /** The untagged folder follows the tag folders, titled online when offline
      pairs are split off and all otherwise. */
  lemma {:induction false} FolderOrderUntagged(cfg: FolderConfig, pairs: seq<PairView>, groups: seq<Group>,
                                               tags: seq<string>, tagged: set<(string, string)>, filter: string)
    ensures GetDrawFolders(cfg, pairs, groups, tags, tagged, filter)[TagsStart(cfg, groups) + |tags|]
            == MakeTagFolder(if cfg.showOfflineUsersSeparately then OnlineTag else AllTag,
                             cfg, tagged, NotTaggedUsers, pairs, filter)
  {
    var p := Plan(cfg, groups, tags);
    PlanUntaggedAt(cfg, groups, tags);
    assert p[TagsStart(cfg, groups) + |tags|] == UntaggedSpec(cfg);
  }

  /** The offline folder follows the untagged one when enabled, then the
      offline syncshell folder when that is enabled too. */
  lemma {:induction false} FolderOrderOffline(cfg: FolderConfig, pairs: seq<PairView>, groups: seq<Group>,
                                              tags: seq<string>, tagged: set<(string, string)>, filter: string)
    requires cfg.showOfflineUsersSeparately
    ensures var r := GetDrawFolders(cfg, pairs, groups, tags, tagged, filter);
      var k := TagsStart(cfg, groups) + |tags| + 1;
      r[k] == MakeTagFolder(OfflineTag, cfg, tagged, OfflineUsers, pairs, filter)
      && (cfg.showSyncshellOfflineUsersSeparately ==>
            r[k + 1] == MakeTagFolder(OfflineSyncshellTag, cfg, tagged, OfflineSyncshellUsers, pairs, filter))
  {
    var p := Plan(cfg, groups, tags);
    var k := TagsStart(cfg, groups) + |tags| + 1;
    PlanOfflineAt(cfg, groups, tags, 0);
    assert p[k] == TagSpec(OfflineTag, OfflineUsers);
    if cfg.showSyncshellOfflineUsersSeparately {
      PlanOfflineAt(cfg, groups, tags, 1);
      assert p[k + 1] == TagSpec(OfflineSyncshellTag, OfflineSyncshellUsers);
    }
  }

  /** The unpaired folder of one-sided pairs is always last. */
  lemma {:induction false} FolderOrderLast(cfg: FolderConfig, pairs: seq<PairView>, groups: seq<Group>,
                                           tags: seq<string>, tagged: set<(string, string)>, filter: string)
    ensures var r := GetDrawFolders(cfg, pairs, groups, tags, tagged, filter);
      r[|r| - 1] == MakeTagFolder(UnpairedTag, cfg, tagged, OneSidedUsers, pairs, filter)
  {
    var p := Plan(cfg, groups, tags);
    PlanUnpairedLast(cfg, groups, tags);
    assert p[|p| - 1] == TagSpec(UnpairedTag, OneSidedUsers);
  }

  /** The syncshells are in alias-or-GID order, ignoring case. */
  lemma {:induction false} SortedGroupsOrder(groups: seq<Group>)
    ensures forall i, j :: 0 <= i < j < |SortedGroups(groups)| ==>
              LexLe(GroupNameKey(SortedGroups(groups)[i]), GroupNameKey(SortedGroups(groups)[j]))
  {
    SortByKeySorted(groups, GroupNameKey);
  }
}
