/** The modern theme service: the table of built-in modern themes merged with
    the legacy presets converted to modern themes, the current theme, and the
    theme name and opacity it keeps in the configuration. Both tables are
    parameters of the service; the configuration is two fields and a count of
    saves; `ThemeChanged` is the sequence of themes it was raised with. */
module ThemeService {
  import opened Colors
  import opened Text

  /** Where a theme's surface colours come from: the built-in surface
      constants, or a legacy preset's panel, header and button colours (the
      colour arithmetic on them is not modelled). */
  datatype Surfaces = StandardSurfaces | LegacySurfaces(panelBg: Vector4, headerBg: Vector4, btn: Vector4)

  /** A `ModernTheme`, by the properties the service reads and writes. */
  datatype ModernTheme = ModernTheme(
    name: string, displayName: string, opacity: Single,
    textPrimary: Vector4, textMuted: Vector4, textMuted2: Vector4,
    accent: Vector4, accent2: Vector4, surfaces: Surfaces)

  /** `ConvertLegacyTheme`: the lower-cased preset name is the theme's name,
      the preset name as given its display name, the panel background's alpha
      its opacity, and the text and accent colours are the preset's. */
  function ConvertLegacyTheme(name: string, legacy: ThemePalette): (r: ModernTheme)
    ensures r.name == ToLower(name) && r.displayName == name
    ensures r.opacity == legacy.panelBg.w
    ensures r.textPrimary == legacy.textPrimary && r.textMuted == legacy.textSecondary
    ensures r.textMuted2 == legacy.textDisabled && r.accent == legacy.accent && r.accent2 == legacy.link
    ensures r.surfaces == LegacySurfaces(legacy.panelBg, legacy.headerBg, legacy.btn)
  {
    ModernTheme(ToLower(name), name, legacy.panelBg.w, legacy.textPrimary, legacy.textSecondary,
                legacy.textDisabled, legacy.accent, legacy.link,
                LegacySurfaces(legacy.panelBg, legacy.headerBg, legacy.btn))
  }

  /** A converted theme's name is already lower case. */
  lemma {:induction false} ConvertedNameIsLower(name: string, legacy: ThemePalette)
    ensures ToLower(ConvertLegacyTheme(name, legacy).name) == ConvertLegacyTheme(name, legacy).name
  {
    ToLowerIdempotent(name);
  }

  /** The `foreach` of `GetAllAvailableThemes` from the table `acc` on: each
      preset, in order, is added under its lower-cased name unless that key is
      already present. */
  function Merge(acc: map<string, ModernTheme>, legacy: seq<(string, ThemePalette)>): map<string, ModernTheme>
    decreases |legacy|
  {
    if legacy == [] then acc
    else
      var key := ToLower(legacy[0].0);
      Merge(if key in acc then acc else acc[key := ConvertLegacyTheme(legacy[0].0, legacy[0].1)], legacy[1..])
  }

  /** The lower-cased names of the presets. */
  function LegacyKeys(legacy: seq<(string, ThemePalette)>): set<string>
  {
    set i | 0 <= i < |legacy| :: ToLower(legacy[i].0)
  }

  /** `GetAllAvailableThemes`: a copy of the built-in table with the presets
      merged in. */
  method GetAllAvailableThemes(builtIns: map<string, ModernTheme>, legacy: seq<(string, ThemePalette)>)
    returns (all: map<string, ModernTheme>)
    ensures all == Merge(builtIns, legacy)
  {
    all := builtIns;
    var i := 0;
    while i < |legacy|
      invariant 0 <= i <= |legacy|
      invariant Merge(all, legacy[i..]) == Merge(builtIns, legacy)
    {
      var key := ToLower(legacy[i].0);
      assert legacy[i..][1..] == legacy[i + 1..];
      if key !in all {
        all := all[key := ConvertLegacyTheme(legacy[i].0, legacy[i].1)];
      }
      i := i + 1;
    }
    assert legacy[i..] == [];
  }

  /** The merged table's keys are the built-in keys and the presets'
      lower-cased names. */
  lemma {:induction false} MergeKeys(acc: map<string, ModernTheme>, legacy: seq<(string, ThemePalette)>)
    ensures Merge(acc, legacy).Keys == acc.Keys + LegacyKeys(legacy)
    decreases |legacy|
  {
    if legacy != [] {
      var key := ToLower(legacy[0].0);
      var next := if key in acc then acc else acc[key := ConvertLegacyTheme(legacy[0].0, legacy[0].1)];
      MergeKeys(next, legacy[1..]);
      assert next.Keys == acc.Keys + {key};
      assert LegacyKeys(legacy) == {key} + LegacyKeys(legacy[1..]) by {
        forall k | k in LegacyKeys(legacy) ensures k in {key} + LegacyKeys(legacy[1..]) {
          var i :| 0 <= i < |legacy| && k == ToLower(legacy[i].0);
          if i > 0 {
            assert legacy[1..][i - 1] == legacy[i];
          }
        }
        forall k | k in LegacyKeys(legacy[1..]) ensures k in LegacyKeys(legacy) {
          var i :| 0 <= i < |legacy[1..]| && k == ToLower(legacy[1..][i].0);
          assert legacy[1..][i] == legacy[i + 1];
        }
      }
    }
  }

  /** A theme already in the table is never replaced by a preset. */
  lemma {:induction false} MergeKeepsExisting(acc: map<string, ModernTheme>, legacy: seq<(string, ThemePalette)>,
                                              k: string)
    requires k in acc
    ensures k in Merge(acc, legacy) && Merge(acc, legacy)[k] == acc[k]
    decreases |legacy|
  {
    if legacy != [] {
      var key := ToLower(legacy[0].0);
      var next := if key in acc then acc else acc[key := ConvertLegacyTheme(legacy[0].0, legacy[0].1)];
      MergeKeepsExisting(next, legacy[1..], k);
    }
  }

  /** A key the table did not have holds the conversion of the first preset
      whose lower-cased name it is. */
  lemma {:induction false} MergeFirstPresetWins(acc: map<string, ModernTheme>, legacy: seq<(string, ThemePalette)>,
                                                j: int)
    requires 0 <= j < |legacy| && ToLower(legacy[j].0) !in acc
    requires forall i :: 0 <= i < j ==> ToLower(legacy[i].0) != ToLower(legacy[j].0)
    ensures var key := ToLower(legacy[j].0);
      key in Merge(acc, legacy) && Merge(acc, legacy)[key] == ConvertLegacyTheme(legacy[j].0, legacy[j].1)
    decreases |legacy|
  {
    var key := ToLower(legacy[0].0);
    var next := if key in acc then acc else acc[key := ConvertLegacyTheme(legacy[0].0, legacy[0].1)];
    if j == 0 {
      MergeKeepsExisting(next, legacy[1..], key);
    } else {
      assert legacy[1..][j - 1] == legacy[j];
      forall i | 0 <= i < j - 1 ensures ToLower(legacy[1..][i].0) != ToLower(legacy[1..][j - 1].0) {
        assert legacy[1..][i] == legacy[i + 1];
      }
      MergeFirstPresetWins(next, legacy[1..], j - 1);
    }
  }

  /** Every theme of the merged table that is not a built-in one is named by
      its key. */
  lemma {:induction false} MergedNamesMatchKeys(acc: map<string, ModernTheme>, legacy: seq<(string, ThemePalette)>,
                                                k: string)
    requires k in Merge(acc, legacy) && k !in acc
    ensures Merge(acc, legacy)[k].name == k
    decreases |legacy|
  {
    if legacy != [] {
      var key := ToLower(legacy[0].0);
      var next := if key in acc then acc else acc[key := ConvertLegacyTheme(legacy[0].0, legacy[0].1)];
      if k in next {
        assert k == key;
        MergeKeepsExisting(next, legacy[1..], k);
      } else {
        MergedNamesMatchKeys(next, legacy[1..], k);
      }
    }
  }

  /** The legacy "Purple" preset lower-cases to the built-in "purple" key, so
      it never replaces the built-in purple theme. */
  lemma {:induction false} LegacyPurpleKeepsBuiltIn(builtIns: map<string, ModernTheme>, legacy: seq<(string, ThemePalette)>, j: int)
    requires "purple" in builtIns && 0 <= j < |legacy| && legacy[j].0 == "Purple"
    ensures ToLower(legacy[j].0) in builtIns
    ensures "purple" in Merge(builtIns, legacy) && Merge(builtIns, legacy)["purple"] == builtIns["purple"]
  {
    assert ToLower("Purple") == "purple";
    MergeKeepsExisting(builtIns, legacy, "purple");
  }

  /** `GetThemeDisplayNames`: each theme's display name under its key. */
  function DisplayNames(all: map<string, ModernTheme>): (r: map<string, string>)
    ensures r.Keys == all.Keys
    ensures forall k :: k in r ==> r[k] == all[k].displayName
  {
    map k | k in all :: all[k].displayName
  }

  class ModernThemeService {
    /** `ModernTheme.Themes`. */
    const builtIns: map<string, ModernTheme>
    /** `ThemePresets.Presets`, in dictionary order. */
    const legacy: seq<(string, ThemePalette)>
    var currentTheme: ModernTheme
    /** `ModernThemeName` in the configuration; null is treated as empty. */
    var configName: string
    /** `ModernThemeOpacity` in the configuration. */
    var configOpacity: Single
    /** How many times the configuration was saved. */
    var saves: nat
    /** The themes `ThemeChanged` was raised with, oldest first. */
    var themeChanged: seq<ModernTheme>

    /** The constructor: the "default" built-in theme, then the configured
        theme and opacity as `LoadThemeSettings` applies them. */
    constructor (builtInTable: map<string, ModernTheme>, legacyTable: seq<(string, ThemePalette)>,
                 name: string, opacity: Single)
      requires "default" in builtInTable
      ensures builtIns == builtInTable && legacy == legacyTable
      ensures configName == name && configOpacity == opacity && saves == 0 && themeChanged == []
      ensures var all := Merge(builtInTable, legacyTable);
        var picked := if name != "" && ToLower(name) in all then all[ToLower(name)] else builtInTable["default"];
        currentTheme == if IsPositive(opacity) then picked.(opacity := opacity) else picked
    {
      builtIns, legacy := builtInTable, legacyTable;
      currentTheme := builtInTable["default"];
      configName, configOpacity := name, opacity;
      saves, themeChanged := 0, [];
      new;
      LoadThemeSettings();
    }

    /** `LoadThemeSettings`: a non-empty configured name that the merged table
        knows, ignoring case, selects that theme; a positive configured
        opacity replaces the current theme's. */
    method LoadThemeSettings()
      modifies this`currentTheme
      ensures var all := Merge(builtIns, legacy);
        var picked := if configName != "" && ToLower(configName) in all then all[ToLower(configName)]
                      else old(currentTheme);
        currentTheme == if IsPositive(configOpacity) then picked.(opacity := configOpacity) else picked
    {
      if configName != "" {
        var all := GetAllAvailableThemes(builtIns, legacy);
        var key := ToLower(configName);
        if key in all {
          currentTheme := all[key];
        }
      }
      if IsPositive(configOpacity) {
        currentTheme := currentTheme.(opacity := configOpacity);
      }
    }

    /** `SaveThemeSettings`: the current theme's name and opacity are stored
        in the configuration, which is saved. */
    method SaveThemeSettings()
      modifies this`configName, this`configOpacity, this`saves
      ensures configName == currentTheme.name && configOpacity == currentTheme.opacity
      ensures saves == old(saves) + 1
    {
      configName := currentTheme.name;
      configOpacity := currentTheme.opacity;
      saves := saves + 1;
    }

    /** `SetTheme`: the theme under the lower-cased name, or the "default"
        built-in theme when there is none, becomes current; it is saved and
        `ThemeChanged` is raised once with it. */
    method SetTheme(themeName: string)
      requires "default" in builtIns
      modifies this`currentTheme, this`configName, this`configOpacity, this`saves, this`themeChanged
      ensures var all := Merge(builtIns, legacy);
        currentTheme == if ToLower(themeName) in all then all[ToLower(themeName)] else builtIns["default"]
      ensures configName == currentTheme.name && configOpacity == currentTheme.opacity
      ensures saves == old(saves) + 1
      ensures themeChanged == old(themeChanged) + [currentTheme]
    {
      var all := GetAllAvailableThemes(builtIns, legacy);
      var key := ToLower(themeName);
      var theme := if key in all then all[key] else builtIns["default"];
      currentTheme := theme;
      SaveThemeSettings();
      themeChanged := themeChanged + [currentTheme];
    }

    /** `GetThemeDisplayNames`: the display names of the merged table, under
        the same keys. */
    method GetThemeDisplayNames() returns (names: map<string, string>)
      ensures names.Keys == Merge(builtIns, legacy).Keys == builtIns.Keys + LegacyKeys(legacy)
      ensures forall k :: k in names ==> names[k] == Merge(builtIns, legacy)[k].displayName
    {
      var all := GetAllAvailableThemes(builtIns, legacy);
      MergeKeys(builtIns, legacy);
      names := DisplayNames(all);
    }
  }

  /** After `SetTheme` with a built-in key, the built-in theme is current. */
  method SetBuiltInTheme(service: ModernThemeService, key: string)
    requires "default" in service.builtIns && key in service.builtIns && ToLower(key) == key
    modifies service
    ensures service.currentTheme == service.builtIns[key]
    ensures service.configName == service.builtIns[key].name
  {
    service.SetTheme(key);
    MergeKeepsExisting(service.builtIns, service.legacy, key);
  }
}
