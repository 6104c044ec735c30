/** The settings window's log viewer helpers and its small configuration-list
    editors: the UID whitelist, the secret keys of a server, and the server-bar
    colours. */
module SettingsUi {
  import opened Text
  import opened Seqs
  import opened Int32
  import opened UILogging
  import opened LogCategories

  /** The configured level toggles (`ShowTraceLogs` … `ShowErrorLogs`). */
  datatype LevelToggles = LevelToggles(trace: bool, debug: bool, info: bool, warning: bool, error: bool)

  /** The six category check boxes of a log or event filter. */
  datatype CategoryToggles = CategoryToggles(plugin: bool, auth: bool, services: bool, network: bool,
                                             file: bool, other: bool)

  /** The switch on the category name: each category has its own box. */
  function CategoryShown(t: CategoryToggles, c: Category): bool
  {
    match c
    case Plugin => t.plugin
    case Auth => t.auth
    case Services => t.services
    case Network => t.network
    case File => t.file
    case Other => t.other
  }

  /** `ShouldShowLogLevel`: each level has its toggle, Critical shares the Error
      toggle, and a level without one (`None`) is always shown. */
  function ShouldShowLogLevel(level: LogLevel, t: LevelToggles): (r: bool)
    ensures level == Error || level == Critical ==> r == t.error
    ensures level == None ==> r
    ensures t == LevelToggles(true, true, true, true, true) ==> r
    ensures t == LevelToggles(false, false, false, false, false) ==> (r <==> level == None)
  {
    match level
    case Trace => t.trace
    case Debug => t.debug
    case Information => t.info
    case Warning => t.warning
    case Error => t.error
    case Critical => t.error
    case None => true
  }

  /** `GetLogLevelText`: a three-letter tag, "UNK" for a level without one. */
  function GetLogLevelText(level: LogLevel): (r: string)
    ensures |r| == 3
    ensures r == "UNK" <==> level == None
  {
    match level
    case Trace => "TRC"
    case Debug => "DBG"
    case Information => "INF"
    case Warning => "WRN"
    case Error => "ERR"
    case Critical => "CRT"
    case None => "UNK"
  }

  /** Different levels get different tags. */
  lemma {:induction false} LogLevelTextInjective(a: LogLevel, b: LogLevel)
    requires GetLogLevelText(a) == GetLogLevelText(b)
    ensures a == b
  {
  }

  /** `TruncateCategory`: names up to 15 characters are kept; longer ones become
      their first 12 characters and "...". */
  function TruncateCategory(category: string): (r: string)
    ensures |r| <= 15
    ensures |category| <= 15 ==> r == category
    ensures |category| > 15 ==> |r| == 15 && r[..12] == category[..12] && r[12..] == "..."
  {
    if |category| <= 15 then category else category[..12] + "..."
  }

  /** The test `GetFilteredLogs` makes of one entry: the search text is empty or
      occurs (ignoring case) in the message or the category, the level is
      shown, and the category's box is ticked. */
  predicate LogPasses(log: LogEntry, filterText: string, levels: LevelToggles, cats: CategoryToggles)
  {
    (filterText == [] || ContainsIgnoreCase(log.message, filterText) || ContainsIgnoreCase(log.category, filterText))
    && ShouldShowLogLevel(log.level, levels)
    && CategoryShown(cats, Classify(log.category))
  }

  /** `GetFilteredLogs`: the entries that pass, in their original order. */
  function GetFilteredLogs(logs: seq<LogEntry>, filterText: string, levels: LevelToggles,
                           cats: CategoryToggles): (r: seq<LogEntry>)
    ensures |r| <= |logs|
  {
    Filter(logs, log => LogPasses(log, filterText, levels, cats))
  }

  /** An entry is shown exactly when it is in the log and passes all three
      tests, and the shown entries keep the log's order. */
  lemma {:induction false} GetFilteredLogsSpec(logs: seq<LogEntry>, filterText: string, levels: LevelToggles,
                            cats: CategoryToggles, e: LogEntry)
    ensures e in GetFilteredLogs(logs, filterText, levels, cats) <==>
              e in logs && LogPasses(e, filterText, levels, cats)
    ensures IsSubsequence(GetFilteredLogs(logs, filterText, levels, cats), logs)
  {
    FilterMembership(logs, log => LogPasses(log, filterText, levels, cats), e);
    FilterIsSubsequence(logs, log => LogPasses(log, filterText, levels, cats));
  }

  /** With no search text, every box ticked and every level shown, the whole log
      is shown. */
  lemma {:induction false} GetFilteredLogsAllShown(logs: seq<LogEntry>)
    ensures GetFilteredLogs(logs, "", LevelToggles(true, true, true, true, true),
                            CategoryToggles(true, true, true, true, true, true)) == logs
  {
    var levels := LevelToggles(true, true, true, true, true);
    var cats := CategoryToggles(true, true, true, true, true, true);
    FilterAll(logs, log => LogPasses(log, "", levels, cats));
  }

  /** A secret key of a server. `SecretKey` is not part of this model beyond
      these two fields; `key == ""` stands for the value `new SecretKey()`
      leaves in a key whose only field set is `FriendlyName`. */
  datatype SecretKey = SecretKey(friendlyName: string, key: string)

  /** A character authentication; only the secret key it uses matters here. */
  datatype Authentication = Authentication(characterName: string, secretKeyIdx: int)

  /** The colours of one state of the server-bar entry. */
  datatype DtrColors = DtrColors(foreground: nat, glow: nat)

  /** No string occurs twice. */
  predicate NoDuplicates(s: seq<string>)
  {
    forall i, j :: 0 <= i < j < |s| ==> s[i] != s[j]
  }

  /** Some authentication uses the key index. */
  predicate KeyInUse(auths: seq<Authentication>, idx: int)
  {
    exists i :: 0 <= i < |auths| && auths[i].secretKeyIdx == idx
  }

  lemma {:induction false} NonEmpty(s: set<int>)
    requires s != {}
    ensures exists x :: x in s
  {
    if forall x :: x !in s {
      assert false;
    }
  }

  /** The index the next secret key gets: `Max + 1` (a 32-bit addition) over the
      existing indices, or 0 when there are none. */
  method NextSecretKeyIndex(keys: set<int>) returns (idx: int)
    requires forall k :: k in keys ==> InRange(k)
    ensures keys == {} ==> idx == 0
    ensures keys != {} ==> exists m :: m in keys && (forall k :: k in keys ==> k <= m) && idx == Wrap(m + 1)
    ensures (forall k :: k in keys ==> k < MaxValue) ==> idx !in keys
    ensures MaxValue in keys ==> idx == MinValue
  {
    if keys == {} {
      return 0;
    }
    NonEmpty(keys);
    var m :| m in keys;
    var rest := keys - {m};
    while rest != {}
      invariant rest <= keys && m in keys
      invariant forall k :: k in keys && k !in rest ==> k <= m
      decreases |rest|
    {
      NonEmpty(rest);
      var k :| k in rest;
      if k > m {
        m := k;
      }
      rest := rest - {k};
    }
    idx := Wrap(m + 1);
  }

  /** The editable state of the settings window and the configuration lists it
      edits. */
  class ModernSettingsUi {
    // UID whitelist
    var uidToAddForIgnore: string
    var selectedEntry: int
    var uidsToIgnore: seq<string>
    // secret keys and authentications of the selected server
    var secretKeys: map<int, SecretKey>
    var authentications: seq<Authentication>
    // server-bar colours
    var dtrColorsDefault: DtrColors
    var dtrColorsNotConnected: DtrColors
    var dtrColorsPairsInRange: DtrColors
    /** How many times a configuration was saved. */
    var saves: nat

    /** The selection is nothing (-1) or an entry of the whitelist. */
    ghost predicate Valid()
      reads this
    {
      (selectedEntry == -1 || 0 <= selectedEntry < |uidsToIgnore|)
      && forall k :: k in secretKeys ==> InRange(k)
    }

    constructor (uids: seq<string>, keys: map<int, SecretKey>, auths: seq<Authentication>)
      requires forall k :: k in keys ==> InRange(k)
      ensures Valid()
      ensures uidToAddForIgnore == "" && selectedEntry == -1 && uidsToIgnore == uids
      ensures secretKeys == keys && authentications == auths && saves == 0
    {
      uidToAddForIgnore, selectedEntry, uidsToIgnore := "", -1, uids;
      secretKeys, authentications := keys, auths;
      dtrColorsDefault := DtrColors(0, 0);
      dtrColorsNotConnected := DtrColors(0, 0);
      dtrColorsPairsInRange := DtrColors(0, 0);
      saves := 0;
    }

    /** Typing into the whitelist input box. */
    method EditUidToAdd(text: string)
      modifies this`uidToAddForIgnore
      ensures uidToAddForIgnore == text
    {
      uidToAddForIgnore := text;
    }

    /** Clicking a whitelist entry selects it. */
    method SelectEntry(i: int)
      requires Valid() && 0 <= i < |uidsToIgnore|
      modifies this`selectedEntry
      ensures Valid() && selectedEntry == i
    {
      selectedEntry := i;
    }

    /** "Add UID/Vanity ID to whitelist": disabled while the input is empty;
        otherwise adds the input unless it is already listed (ordinal), and
        clears the input either way. */
    method AddToWhitelist()
      requires Valid()
      modifies this`uidsToIgnore, this`uidToAddForIgnore, this`saves
      ensures Valid()
      ensures old(uidToAddForIgnore) == "" ==>
        uidsToIgnore == old(uidsToIgnore) && uidToAddForIgnore == "" && saves == old(saves)
      ensures old(uidToAddForIgnore) != "" && old(uidToAddForIgnore) in old(uidsToIgnore) ==>
        uidsToIgnore == old(uidsToIgnore) && saves == old(saves)
      ensures old(uidToAddForIgnore) != "" && old(uidToAddForIgnore) !in old(uidsToIgnore) ==>
        uidsToIgnore == old(uidsToIgnore) + [old(uidToAddForIgnore)] && saves == old(saves) + 1
      ensures uidToAddForIgnore == ""
      ensures NoDuplicates(old(uidsToIgnore)) ==> NoDuplicates(uidsToIgnore)
    {
      if uidToAddForIgnore == "" {
        return;
      }
      if uidToAddForIgnore !in uidsToIgnore {
        uidsToIgnore := uidsToIgnore + [uidToAddForIgnore];
        saves := saves + 1;
      }
      uidToAddForIgnore := "";
    }

    /** "Delete selected UID": disabled while nothing is selected; otherwise
        removes exactly the selected entry and clears the selection. */
    method DeleteSelectedUid()
      requires Valid()
      modifies this`uidsToIgnore, this`selectedEntry, this`saves
      ensures Valid() && selectedEntry == -1
      ensures old(selectedEntry) == -1 ==> uidsToIgnore == old(uidsToIgnore) && saves == old(saves)
      ensures old(selectedEntry) != -1 ==>
        uidsToIgnore == old(uidsToIgnore)[..old(selectedEntry)] + old(uidsToIgnore)[old(selectedEntry) + 1..]
        && saves == old(saves) + 1
    {
      if selectedEntry == -1 {
        return;
      }
      uidsToIgnore := uidsToIgnore[..selectedEntry] + uidsToIgnore[selectedEntry + 1..];
      selectedEntry := -1;
      saves := saves + 1;
    }

    /** "Add new Secret Key": a key named "New Secret Key" under the next index,
        `Max + 1` over the present indices or 0 when there are none.
        `Dictionary.Add` throws for an index already present, which only a
        wrapped `Max + 1` can produce; then nothing is added. */
    method AddSecretKey() returns (added: bool, idx: int)
      requires Valid()
      modifies this`secretKeys, this`saves
      ensures Valid()
      ensures old(secretKeys) == map[] ==> idx == 0
      ensures old(secretKeys) != map[] ==>
        exists m :: m in old(secretKeys) && (forall k :: k in old(secretKeys) ==> k <= m) && idx == Wrap(m + 1)
      ensures added <==> idx !in old(secretKeys)
      ensures added ==> secretKeys == old(secretKeys)[idx := SecretKey("New Secret Key", "")]
      ensures added ==> saves == old(saves) + 1
      ensures !added ==> secretKeys == old(secretKeys) && saves == old(saves)
      ensures (forall k :: k in old(secretKeys) ==> k < MaxValue) ==> added
      ensures MaxValue in old(secretKeys) ==> (added <==> MinValue !in old(secretKeys))
    {
      idx := NextSecretKeyIndex(secretKeys.Keys);
      if idx in secretKeys {
        return false, idx;
      }
      secretKeys := secretKeys[idx := SecretKey("New Secret Key", "")];
      saves := saves + 1;
      return true, idx;
    }

    /** "Delete Secret Key": offered only for a key no authentication uses, and
        acts only while Ctrl is held. */
    method DeleteSecretKey(idx: int, ctrlPressed: bool)
      requires Valid() && idx in secretKeys
      modifies this`secretKeys, this`saves
      ensures Valid()
      ensures !KeyInUse(authentications, idx) && ctrlPressed ==>
        secretKeys == old(secretKeys) - {idx} && saves == old(saves) + 1
      ensures KeyInUse(authentications, idx) || !ctrlPressed ==>
        secretKeys == old(secretKeys) && saves == old(saves)
      ensures KeyInUse(authentications, idx) ==> idx in secretKeys
    {
      var inUse := false;
      var i := 0;
      while i < |authentications|
        invariant 0 <= i <= |authentications|
        invariant inUse <==> exists j :: 0 <= j < i && authentications[j].secretKeyIdx == idx
      {
        if authentications[i].secretKeyIdx == idx {
          inUse := true;
        }
        i := i + 1;
      }
      if !inUse && ctrlPressed {
        secretKeys := secretKeys - {idx};
        saves := saves + 1;
      }
    }

    /** `SetDtrColor`: index 0, 1 and 2 set the default, not-connected and
        pairs-in-range colours; any other index sets nothing. The configuration
        is saved in every case. */
    method SetDtrColor(index: int, colors: DtrColors)
      modifies this`dtrColorsDefault, this`dtrColorsNotConnected, this`dtrColorsPairsInRange, this`saves
      ensures dtrColorsDefault == if index == 0 then colors else old(dtrColorsDefault)
      ensures dtrColorsNotConnected == if index == 1 then colors else old(dtrColorsNotConnected)
      ensures dtrColorsPairsInRange == if index == 2 then colors else old(dtrColorsPairsInRange)
      ensures saves == old(saves) + 1
    {
      if index == 0 {
        dtrColorsDefault := colors;
      } else if index == 1 {
        dtrColorsNotConnected := colors;
      } else if index == 2 {
        dtrColorsPairsInRange := colors;
      }
      saves := saves + 1;
    }
  }
}
