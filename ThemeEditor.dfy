/** The main window's theme state: the active palette, the working copy the
    inline editor changes, the selected and last-selected preset names, and
    whether the editor is shown. The preset table is the ordered dictionary of
    named palettes it iterates; `defaults` stands for a freshly constructed
    `ThemePalette`. Saving stores the palette in the configuration and counts
    one save. */
module ThemeEditor {
  import opened Colors
  import opened Wrappers

  /** `ThemesEqual`: the seventeen colours are pairwise `Vector4.Equals`. */
  predicate ThemesEqual(a: ThemePalette, b: ThemePalette)
  {
    forall f: PaletteField :: VectorEquals(Get(a, f), Get(b, f))
  }

  /** `ThemesEqual` is an equivalence relation that holds between equal palettes. */
  lemma {:induction false} ThemesEqualEquivalence(a: ThemePalette, b: ThemePalette, c: ThemePalette)
    ensures ThemesEqual(a, a)
    ensures ThemesEqual(a, b) ==> ThemesEqual(b, a)
    ensures ThemesEqual(a, b) && ThemesEqual(b, c) ==> ThemesEqual(a, c)
  {
    forall f: PaletteField ensures VectorEquals(Get(a, f), Get(a, f)) {
      var u := Get(a, f);
      SingleEqualsEquivalence(u.x, u.x, u.x);
      SingleEqualsEquivalence(u.y, u.y, u.y);
      SingleEqualsEquivalence(u.z, u.z, u.z);
      SingleEqualsEquivalence(u.w, u.w, u.w);
    }
    if ThemesEqual(a, b) {
      forall f: PaletteField ensures VectorEquals(Get(b, f), Get(a, f)) {
        assert VectorEquals(Get(a, f), Get(b, f));
        var u, v := Get(a, f), Get(b, f);
        SingleEqualsEquivalence(u.x, v.x, v.x);
        SingleEqualsEquivalence(u.y, v.y, v.y);
        SingleEqualsEquivalence(u.z, v.z, v.z);
        SingleEqualsEquivalence(u.w, v.w, v.w);
      }
      if ThemesEqual(b, c) {
        forall f: PaletteField ensures VectorEquals(Get(a, f), Get(c, f)) {
          assert VectorEquals(Get(a, f), Get(b, f)) && VectorEquals(Get(b, f), Get(c, f));
          var u, v, w := Get(a, f), Get(b, f), Get(c, f);
          SingleEqualsEquivalence(u.x, v.x, w.x);
          SingleEqualsEquivalence(u.y, v.y, w.y);
          SingleEqualsEquivalence(u.z, v.z, w.z);
          SingleEqualsEquivalence(u.w, v.w, w.w);
        }
      }
    }
  }

  /** `Clone`: a new palette with every colour copied, so it is the same value
      and `ThemesEqual` to the original. */
  function Clone(p: ThemePalette): (r: ThemePalette)
    ensures forall f :: Get(r, f) == Get(p, f)
    ensures ThemesEqual(r, p)
  {
    ThemesEqualEquivalence(p, p, p);
    ThemePalette(p.panelBg, p.panelBorder, p.headerBg, p.accent,
                 p.textPrimary, p.textSecondary, p.textDisabled, p.link, p.linkHover,
                 p.btn, p.btnHovered, p.btnActive, p.btnText, p.btnTextHovered, p.btnTextActive,
                 p.tooltipBg, p.tooltipText)
  }

  /** The index of the first preset `ThemesEqual` to `p`, if any. */
  predicate FirstMatch(presets: seq<(string, ThemePalette)>, p: ThemePalette, k: int)
  {
    0 <= k < |presets| && ThemesEqual(p, presets[k].1)
    && forall j :: 0 <= j < k ==> !ThemesEqual(p, presets[j].1)
  }

  predicate MatchesSome(presets: seq<(string, ThemePalette)>, p: ThemePalette)
  {
    exists i :: 0 <= i < |presets| && ThemesEqual(p, presets[i].1)
  }

  /** `TryGetValue` on the preset dictionary: the palette stored under `name`. */
  function Lookup(presets: seq<(string, ThemePalette)>, name: string): (r: Option<ThemePalette>)
    ensures r.Some? <==> exists i :: 0 <= i < |presets| && presets[i].0 == name
    ensures r.Some? ==> exists i :: 0 <= i < |presets| && presets[i] == (name, r.value)
  {
    if presets == [] then None
    else if presets[0].0 == name then Some(presets[0].1)
    else
      var r := Lookup(presets[1..], name);
      assert forall i :: 0 <= i < |presets[1..]| ==> presets[1..][i] == presets[i + 1];
      r
  }

  class ThemeEditor {
    /** `ThemePresets.Presets`, in dictionary order. */
    const presets: seq<(string, ThemePalette)>
    /** The colours of `new ThemePalette()`. */
    const defaults: ThemePalette
    /** `_theme`: the palette the window is drawn with. */
    var theme: ThemePalette
    /** `_themeWorking`: the copy the editor rows change. */
    var working: ThemePalette
    var selectedPreset: string
    var lastSelectedPreset: string
    var showThemeInline: bool
    /** `Theme` in the configuration; `None` stands for null. */
    var persisted: Option<ThemePalette>
    /** How many times the configuration was saved. */
    var saves: nat

    /** The constructor: default palettes and the "Blue" preset name; a palette
        in the configuration becomes the active one, and the preset it matches
        (if any) becomes the selected and last-selected one. */
    constructor (presetTable: seq<(string, ThemePalette)>, newPalette: ThemePalette,
                 configured: Option<ThemePalette>)
      ensures presets == presetTable && defaults == newPalette && persisted == configured && saves == 0
      ensures !showThemeInline && working == newPalette
      ensures configured.None? ==> theme == newPalette && selectedPreset == "Blue" && lastSelectedPreset == "Blue"
      ensures configured.Some? ==> theme == configured.value
      ensures configured.Some? && MatchesSome(presetTable, configured.value) ==>
        exists k :: FirstMatch(presetTable, configured.value, k) &&
          selectedPreset == presetTable[k].0 && lastSelectedPreset == presetTable[k].0
      ensures configured.Some? && !MatchesSome(presetTable, configured.value) ==>
        selectedPreset == "Blue" && lastSelectedPreset == "Blue"
    {
      presets, defaults := presetTable, newPalette;
      theme, working := newPalette, newPalette;
      selectedPreset, lastSelectedPreset := "Blue", "Blue";
      showThemeInline := false;
      persisted, saves := configured, 0;
      new;
      if configured.Some? {
        theme := Clone(configured.value);
        DetectCurrentPreset();
      }
    }

    /** `ToggleThemeInline`: opening the editor restores the last-selected
        preset name and copies the active palette into the working one;
        closing it changes nothing else. */
    method ToggleThemeInline()
      modifies this`showThemeInline, this`selectedPreset, this`working
      ensures showThemeInline == !old(showThemeInline)
      ensures showThemeInline ==> selectedPreset == lastSelectedPreset && working == theme
      ensures !showThemeInline ==> selectedPreset == old(selectedPreset) && working == old(working)
    {
      showThemeInline := !showThemeInline;
      if showThemeInline {
        selectedPreset := lastSelectedPreset;
        working := Clone(theme);
      }
    }

    /** `IsThemeCustomized`: the active palette is `ThemesEqual` to no preset. */
    method IsThemeCustomized() returns (customized: bool)
      ensures customized <==> !MatchesSome(presets, theme)
    {
      var i := 0;
      while i < |presets|
        invariant 0 <= i <= |presets|
        invariant forall j :: 0 <= j < i ==> !ThemesEqual(theme, presets[j].1)
      {
        if ThemesEqual(theme, presets[i].1) {
          return false;
        }
        i := i + 1;
      }
      return true;
    }

    /** The preset combo's label: "Custom" for a customised palette, else the
        selected preset's name. */
    method PresetLabel() returns (caption: string)
      ensures !MatchesSome(presets, theme) ==> caption == "Custom"
      ensures MatchesSome(presets, theme) ==> caption == selectedPreset
    {
      var customized := IsThemeCustomized();
      caption := if customized then "Custom" else selectedPreset;
    }

    /** `DetectCurrentPreset`: the first preset, in dictionary order, that the
        active palette equals becomes the selected and last-selected one; with
        no match both names stay as they were. */
    method DetectCurrentPreset()
      modifies this`selectedPreset, this`lastSelectedPreset
      ensures MatchesSome(presets, theme) ==>
        exists k :: FirstMatch(presets, theme, k) &&
          selectedPreset == presets[k].0 && lastSelectedPreset == presets[k].0
      ensures !MatchesSome(presets, theme) ==>
        selectedPreset == old(selectedPreset) && lastSelectedPreset == old(lastSelectedPreset)
    {
      var i := 0;
      while i < |presets|
        invariant 0 <= i <= |presets|
        invariant forall j :: 0 <= j < i ==> !ThemesEqual(theme, presets[j].1)
      {
        if ThemesEqual(theme, presets[i].1) {
          selectedPreset := presets[i].0;
          lastSelectedPreset := presets[i].0;
          assert FirstMatch(presets, theme, i);
          return;
        }
        i := i + 1;
      }
    }

    /** Choosing preset `k` in the combo: it becomes the selected and
        last-selected preset, and both the working and the active palette
        become its colours (the active one previews the choice). */
    method PickPreset(k: int)
      requires showThemeInline && 0 <= k < |presets|
      modifies this`selectedPreset, this`lastSelectedPreset, this`working, this`theme
      ensures selectedPreset == presets[k].0 && lastSelectedPreset == presets[k].0
      ensures working == presets[k].1 && theme == presets[k].1
      ensures MatchesSome(presets, theme)
    {
      selectedPreset := presets[k].0;
      lastSelectedPreset := presets[k].0;
      working := Clone(presets[k].1);
      theme := Clone(working);
      ThemesEqualEquivalence(theme, theme, theme);
    }

    /** A colour row's picker stores `c` in its row of the working palette, and
        the active palette previews the working one. */
    method EditColor(f: PaletteField, c: Vector4)
      requires showThemeInline
      modifies this`working, this`theme
      ensures Get(working, f) == c
      ensures forall g :: g != f ==> Get(working, g) == Get(old(working), g)
      ensures theme == working
    {
      working := With(working, f, c);
      theme := Clone(working);
    }

    /** "Reset to Preset": the working and active palettes become the selected
        preset's colours, or the defaults when no preset has that name. */
    method ResetToPreset()
      requires showThemeInline
      modifies this`working, this`theme
      ensures Lookup(presets, selectedPreset).Some? ==> working == Lookup(presets, selectedPreset).value
      ensures Lookup(presets, selectedPreset).None? ==> working == defaults
      ensures theme == working
    {
      var p := Lookup(presets, selectedPreset);
      working := if p.Some? then Clone(p.value) else defaults;
      theme := Clone(working);
    }

    /** "Cancel": the editor closes; the palettes, which already preview the
        edits, stay as they are. */
    method Cancel()
      requires showThemeInline
      modifies this`showThemeInline
      ensures !showThemeInline
    {
      showThemeInline := false;
    }

    /** "Save": the working palette becomes the active one and is stored in the
        configuration, which is saved; the editor closes. */
    method Save()
      requires showThemeInline
      modifies this`theme, this`persisted, this`saves, this`showThemeInline
      ensures theme == working && persisted == Some(working)
      ensures saves == old(saves) + 1 && !showThemeInline
    {
      theme := Clone(working);
      persisted := Some(theme);
      saves := saves + 1;
      showThemeInline := false;
    }
  }

  /** Reopening after "Cancel" starts from the previewed palette: edits made
      before cancelling are not undone. */
  method CancelKeepsPreview(editor: ThemeEditor, f: PaletteField, c: Vector4)
    requires !editor.showThemeInline
    modifies editor
    ensures Get(editor.theme, f) == c && Get(editor.working, f) == c
    ensures editor.persisted == old(editor.persisted) && editor.saves == old(editor.saves)
  {
    editor.ToggleThemeInline();
    editor.EditColor(f, c);
    editor.Cancel();
    editor.ToggleThemeInline();
  }
}
