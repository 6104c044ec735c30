/** The tab bar at the top of the main window: the selected tab, the pair-list
    filter text, the add-pair input, the pin and click-through toggles, and the
    enablement rules of its buttons. The mediator is modelled by counting the
    `RefreshUiMessage`s published and recording the add-pair requests sent. */
module TopTabs {
  import opened Text
  import opened Wrappers
  import opened Seqs

  datatype Tab = NoTab | Individual | Syncshell | FilterTab | UserConfig

  /** `UserData`: a user id and an optional alias. */
  datatype UserData = UserData(uid: string, alias: Option<string>)

  /** A syncshell the user is in, compared by value as the record is. */
  datatype GroupInfo = GroupInfo(gid: string, ownerUid: string)

  /** `IndividualPairStatus`; only `Bidirectional` matters here. */
  datatype PairStatus = Bidirectional | OtherStatus(code: int)

  /** A pair as the bulk permission change sees it: the other user, the pair
      status and this user's own permission flags. */
  datatype PairInfo = PairInfo(user: UserData, status: PairStatus, ownPermissions: int)

  /** The input matches an existing direct pair's UID or alias (ordinal). */
  predicate AlreadyPaired(directPairs: seq<UserData>, input: string)
  {
    exists i :: 0 <= i < |directPairs| && (directPairs[i].uid == input || directPairs[i].alias == Some(input))
  }

  /** Whether the "Add" button is enabled. */
  predicate CanAddPair(directPairs: seq<UserData>, input: string): (r: bool)
    ensures r ==> input != []
    ensures r <==> input != [] && forall i :: 0 <= i < |directPairs| ==>
                     directPairs[i].uid != input && directPairs[i].alias != Some(input)
    ensures r ==> forall u :: u in directPairs ==> u.uid != input
  {
    input != "" && !AlreadyPaired(directPairs, input)
  }

  /** The syncshells this user owns, counted once each. */
  function OwnedSyncshells(groups: seq<GroupInfo>, myUid: string): (r: nat)
    ensures r <= |set g | g in groups|
  {
    var owned := set g | g in groups && g.ownerUid == myUid;
    assert owned <= set g | g in groups;
    SubsetCardinality(owned, set g | g in groups);
    |owned|
  }

  /** "Create new Syncshell" is enabled while fewer syncshells are owned than the
      server allows. */
  predicate CanCreateSyncshell(groups: seq<GroupInfo>, myUid: string, maxCreated: int): (r: bool)
    ensures maxCreated <= 0 ==> !r
    ensures |set g | g in groups| < maxCreated ==> r
  {
    OwnedSyncshells(groups, myUid) < maxCreated
  }

  /** "Join existing Syncshell" is enabled while fewer syncshells are joined than
      the server allows. */
  predicate CanJoinSyncshell(groups: seq<GroupInfo>, maxJoined: int): (r: bool)
    ensures maxJoined <= 0 ==> !r
    ensures |groups| < maxJoined ==> r
    ensures groups == [] ==> (r <==> maxJoined > 0)
  {
    DistinctAtMostLength(groups);
    |set g | g in groups| < maxJoined
  }

  /** Owned syncshells are joined ones: creating is blocked only once at least
      as many syncshells are joined as the create limit allows. */
  lemma {:induction false} CreateBlockedMeansJoined(groups: seq<GroupInfo>, myUid: string, maxCreated: int)
    requires !CanCreateSyncshell(groups, myUid, maxCreated)
    ensures |set g | g in groups| >= maxCreated
  {
  }

  /** The UIDs of the bidirectional pairs. */
  function BidirectionalUids(pairs: seq<PairInfo>): set<string>
  {
    set i | 0 <= i < |pairs| && pairs[i].status == Bidirectional :: pairs[i].user.uid
  }

  /** The bulk individual permission change: the bidirectional pairs, keyed by UID,
      each with `act` applied to its own permissions. `ToDictionary` throws on a
      repeated key, which gives `None`. */
  function BulkIndividual(pairs: seq<PairInfo>, act: int -> int): (r: Option<map<string, int>>)
    ensures r.Some? ==> r.value.Keys == BidirectionalUids(pairs)
    ensures r.Some? ==> forall i :: 0 <= i < |pairs| && pairs[i].status == Bidirectional ==>
              r.value[pairs[i].user.uid] == act(pairs[i].ownPermissions)
  {
    if pairs == [] then Some(map[])
    else
      var init := pairs[..|pairs| - 1];
      var last := pairs[|pairs| - 1];
      var prior := BulkIndividual(init, act);
      assert forall i :: 0 <= i < |init| ==> init[i] == pairs[i];
      if prior.None? then None
      else if last.status != Bidirectional then
        assert BidirectionalUids(pairs) == BidirectionalUids(init);
        prior
      else if last.user.uid in prior.value then None
      else
        assert BidirectionalUids(pairs) == BidirectionalUids(init) + {last.user.uid};
        Some(prior.value[last.user.uid := act(last.ownPermissions)])
  }

  /** No two bidirectional pairs share a UID. */
  predicate DistinctBidirectional(pairs: seq<PairInfo>)
  {
    forall i, j :: 0 <= i < j < |pairs| && pairs[i].status == Bidirectional && pairs[j].status == Bidirectional
                   ==> pairs[i].user.uid != pairs[j].user.uid
  }

  /** A bidirectional pair repeating a UID already among the earlier pairs'
      breaks distinctness. */
  lemma {:induction false} RepeatedUidNotDistinct(pairs: seq<PairInfo>)
    requires pairs != [] && pairs[|pairs| - 1].status == Bidirectional
    requires pairs[|pairs| - 1].user.uid in BidirectionalUids(pairs[..|pairs| - 1])
    ensures !DistinctBidirectional(pairs)
  {
    var init := pairs[..|pairs| - 1];
    var i :| 0 <= i < |init| && init[i].status == Bidirectional && init[i].user.uid == pairs[|pairs| - 1].user.uid;
    assert pairs[i] == init[i];
  }

  /** A last pair that is not bidirectional, or whose UID is new, keeps
      distinctness. */
  lemma {:induction false} DistinctExtends(pairs: seq<PairInfo>)
    requires pairs != [] && DistinctBidirectional(pairs[..|pairs| - 1])
    requires pairs[|pairs| - 1].status == Bidirectional ==>
               pairs[|pairs| - 1].user.uid !in BidirectionalUids(pairs[..|pairs| - 1])
    ensures DistinctBidirectional(pairs)
  {
    var init := pairs[..|pairs| - 1];
    forall i, j | 0 <= i < j < |pairs| && pairs[i].status == Bidirectional && pairs[j].status == Bidirectional
      ensures pairs[i].user.uid != pairs[j].user.uid
    {
      assert pairs[i] == init[i];
      if j == |pairs| - 1 {
        assert init[i].user.uid in BidirectionalUids(init);
      } else {
        assert pairs[j] == init[j];
      }
    }
  }

  /** Distinctness of all pairs implies distinctness of the earlier ones. */
  lemma {:induction false} DistinctPrefix(pairs: seq<PairInfo>)
    requires pairs != [] && DistinctBidirectional(pairs)
    ensures DistinctBidirectional(pairs[..|pairs| - 1])
  {
    var init := pairs[..|pairs| - 1];
    forall i, j | 0 <= i < j < |init| && init[i].status == Bidirectional && init[j].status == Bidirectional
      ensures init[i].user.uid != init[j].user.uid
    {
      assert init[i] == pairs[i] && init[j] == pairs[j];
    }
  }

  /** The dictionary is built exactly when the bidirectional UIDs are distinct. */
  lemma {:induction false} BulkIndividualDefined(pairs: seq<PairInfo>, act: int -> int)
    ensures BulkIndividual(pairs, act).Some? <==> DistinctBidirectional(pairs)
  {
    if pairs != [] {
      var init := pairs[..|pairs| - 1];
      var last := pairs[|pairs| - 1];
      BulkIndividualDefined(init, act);
      var prior := BulkIndividual(init, act);
      if prior.None? {
        if DistinctBidirectional(pairs) {
          DistinctPrefix(pairs);
        }
      } else if last.status == Bidirectional && last.user.uid in prior.value {
        RepeatedUidNotDistinct(pairs);
      } else {
        DistinctExtends(pairs);
      }
    }
  }

  class TopTabMenu {
    var filter: string
    var selectedTab: Tab
    var pairToAdd: string
    var allowPinning: bool
    var allowClickThrough: bool
    /** How many `RefreshUiMessage`s have been published. */
    var refreshMessages: nat
    /** The `UserAddPair` requests sent, oldest first. */
    var addPairRequests: seq<string>

    constructor ()
      ensures filter == "" && selectedTab == NoTab && pairToAdd == ""
      ensures !allowPinning && !allowClickThrough && refreshMessages == 0 && addPairRequests == []
    {
      filter, selectedTab, pairToAdd := "", NoTab, "";
      allowPinning, allowClickThrough := false, false;
      refreshMessages, addPairRequests := 0, [];
    }

    /** The `Filter` setter: a change that is more than a change of case asks the
        UI to refresh; the new text is stored either way. */
    method SetFilter(value: string)
      modifies this`filter, this`refreshMessages
      ensures filter == value
      ensures refreshMessages == old(refreshMessages) + (if EqualsIgnoreCase(old(filter), value) then 0 else 1)
    {
      if !EqualsIgnoreCase(filter, value) {
        refreshMessages := refreshMessages + 1;
      }
      filter := value;
    }

    /** The `TabSelection` setter: leaving the filter tab empties the filter. */
    method SetTabSelection(value: Tab)
      modifies this`filter, this`refreshMessages, this`selectedTab
      ensures selectedTab == value
      ensures old(selectedTab) == FilterTab && value != FilterTab ==> filter == ""
      ensures !(old(selectedTab) == FilterTab && value != FilterTab) ==>
        filter == old(filter) && refreshMessages == old(refreshMessages)
      ensures old(selectedTab) == FilterTab && value != FilterTab ==>
        refreshMessages == old(refreshMessages) + (if old(filter) == "" then 0 else 1)
    {
      if selectedTab == FilterTab && value != FilterTab {
        SetFilter("");
      }
      selectedTab := value;
    }

    /** A tab's button selects the tab, or goes back to no tab when it was
        already selected. */
    method PressTab(t: Tab)
      requires t != NoTab
      modifies this`filter, this`refreshMessages, this`selectedTab
      ensures selectedTab == if old(selectedTab) == t then NoTab else t
      ensures old(selectedTab) == FilterTab ==>
        filter == "" && refreshMessages == old(refreshMessages) + (if old(filter) == "" then 0 else 1)
      ensures old(selectedTab) != FilterTab ==> filter == old(filter) && refreshMessages == old(refreshMessages)
    {
      SetTabSelection(if selectedTab == t then NoTab else t);
    }

    /** The "Clear" button of the filter tab, enabled while the filter is not empty. */
    method ClearFilterButton()
      modifies this`filter, this`refreshMessages
      ensures filter == ""
      ensures refreshMessages == old(refreshMessages) + (if old(filter) == "" then 0 else 1)
    {
      if filter != "" {
        SetFilter("");
      }
    }

    /** Typing in the add-pair box. */
    method EditPairToAdd(text: string)
      modifies this`pairToAdd
      ensures pairToAdd == text
    {
      pairToAdd := text;
    }

    /** The "Add" button: enabled for a non-empty input that is no existing
        pair's UID or alias; it sends the request and clears the input. */
    method ClickAddPair(directPairs: seq<UserData>)
      modifies this`pairToAdd, this`addPairRequests
      ensures CanAddPair(directPairs, old(pairToAdd)) ==>
        addPairRequests == old(addPairRequests) + [old(pairToAdd)] && pairToAdd == ""
      ensures !CanAddPair(directPairs, old(pairToAdd)) ==>
        addPairRequests == old(addPairRequests) && pairToAdd == old(pairToAdd)
    {
      if CanAddPair(directPairs, pairToAdd) {
        addPairRequests := addPairRequests + [pairToAdd];
        pairToAdd := "";
      }
    }

    /** The "Pin Window" check box. */
    method SetPinned(pinned: bool)
      modifies this`allowPinning
      ensures allowPinning == pinned
    {
      allowPinning := pinned;
    }

    /** The "Click Through" check box: turning it on also pins the window,
        closes the tab and empties the filter, without a refresh. */
    method SetClickThrough(clickThrough: bool)
      modifies this`allowClickThrough, this`allowPinning, this`selectedTab, this`filter
      ensures allowClickThrough == clickThrough
      ensures clickThrough ==> allowPinning && selectedTab == NoTab && filter == ""
      ensures !clickThrough ==>
        allowPinning == old(allowPinning) && selectedTab == old(selectedTab) && filter == old(filter)
    {
      allowClickThrough := clickThrough;
      if clickThrough {
        allowPinning := true;
        selectedTab := NoTab;
        filter := "";
      }
    }

    /** `ClearUserFilter`: empty filter and no tab, without a refresh. */
    method ClearUserFilter()
      modifies this`filter, this`selectedTab
      ensures filter == "" && selectedTab == NoTab
    {
      filter := "";
      selectedTab := NoTab;
    }
  }
}
