/** The style presets panel: built-in and saved presets grouped by category
    in collapsible sections. */
module StylePresetsPanel {
  import opened Common
  import opened Document
  import opened ListOps

  const Custom := "custom"
  const Categories: seq<string> := ["heading", "text", "button", "shape", Custom]
  const InitiallyExpanded: seq<string> := ["heading", "text"]

  datatype StylePreset = StylePreset(id: string, name: string, category: string, style: Style)

  function PresetId(p: StylePreset): string { p.id }

  datatype Panel = Panel(
    presets: seq<StylePreset>,
    customPresets: seq<StylePreset>,
    isDialogOpen: bool,
    newPresetName: string,
    newPresetCategory: string,
    expandedCategories: seq<string>)

  /** The state the panel mounts with, over the built-in presets. */
  function InitialPanel(defaults: seq<StylePreset>): (p: Panel)
    ensures p.presets == defaults && p.customPresets == [] && !p.isDialogOpen
    ensures p.newPresetName == "" && p.newPresetCategory == Custom && p.expandedCategories == InitiallyExpanded
  {
    Panel(defaults, [], false, "", Custom, InitiallyExpanded)
  }

  /** `handleSavePreset()` with `currentStyle` the selected element's style;
      the second result is the preset handed to `onSavePreset`. */
  function SavePreset(p: Panel, currentStyle: Option<Style>, id: string): (r: (Panel, Option<StylePreset>))
    ensures r.1.None? <==> currentStyle.None? || IsBlank(p.newPresetName)
    ensures r.1.None? ==> r.0 == p
    ensures r.1.Some? ==>
      r.1.value == StylePreset(id, Trim(p.newPresetName), p.newPresetCategory, currentStyle.value) &&
      r.0 == p.(customPresets := p.customPresets + [r.1.value], newPresetName := "", isDialogOpen := false)
  {
    if currentStyle.None? || IsBlank(p.newPresetName) then (p, None)
    else
      var preset := StylePreset(id, Trim(p.newPresetName), p.newPresetCategory, currentStyle.value);
      (p.(customPresets := p.customPresets + [preset], newPresetName := "", isDialogOpen := false), Some(preset))
  }

  /** `handleDeleteCustomPreset(presetId)`: built-in presets are untouched. */
  function DeleteCustomPreset(p: Panel, id: string): (r: Panel)
    ensures r == p.(customPresets := r.customPresets)
    ensures forall q :: q in r.customPresets <==> q in p.customPresets && q.id != id
  {
    var rest := RemoveKey(p.customPresets, PresetId, id);
    forall q ensures q in rest <==> q in p.customPresets && q.id != id {
      FilterMembership(p.customPresets, LacksKey(PresetId, id), q);
      assert LacksKey(PresetId, id)(q) == (PresetId(q) != id);
    }
    p.(customPresets := rest)
  }

  /** `toggleCategory(categoryId)` */
  function ToggleCategory(p: Panel, c: string): (r: Panel)
    ensures r == p.(expandedCategories := r.expandedCategories)
    ensures c in r.expandedCategories <==> c !in p.expandedCategories
    ensures c !in p.expandedCategories ==> r.expandedCategories == p.expandedCategories + [c]
  {
    p.(expandedCategories := ToggleMember(p.expandedCategories, c))
  }

  /** Opening and closing a section again restores which sections are open. */
  lemma ToggleCategoryTwice(p: Panel, c: string, d: string)
    ensures d in ToggleCategory(ToggleCategory(p, c), c).expandedCategories <==> d in p.expandedCategories
  {
    ToggleTwice(p.expandedCategories, c, d);
  }

  function AllPresets(p: Panel): seq<StylePreset> { p.presets + p.customPresets }

  function InCategory(c: string): StylePreset -> bool {
    (q: StylePreset) => q.category == c
  }

  /** A section is drawn when it has presets, and Custom always. */
  function CategoryVisible(p: Panel, c: string): (shown: bool)
    ensures shown <==> c == Custom || exists q :: q in AllPresets(p) && q.category == c
  {
    CategoryMembers(AllPresets(p), c);
    !(Filter(AllPresets(p), InCategory(c)) == [] && c != Custom)
  }

  lemma CategoryMembers(all: seq<StylePreset>, c: string)
    ensures Filter(all, InCategory(c)) != [] <==> exists q :: q in all && q.category == c
  {
    var members := Filter(all, InCategory(c));
    if members != [] {
      assert InCategory(c)(members[0]);
      assert members[0] in multiset(all);
    }
    forall q | q in all && q.category == c ensures q in members {
      FilterMembership(all, InCategory(c), q);
    }
  }

  /** The sections drawn, in the fixed category order. */
  function VisibleSections(p: Panel): (r: seq<string>)
    ensures forall c :: c in r <==> c in Categories && CategoryVisible(p, c)
    ensures Custom in r
  {
    var shown := (c: string) => CategoryVisible(p, c);
    KeptIff(Categories, shown);
    assert Categories[4] == Custom;
    assert shown(Custom);
    Filter(Categories, shown)
  }

  lemma KeptIff(s: seq<string>, f: string -> bool)
    ensures forall c :: c in Filter(s, f) <==> c in s && f(c)
  {
    forall c ensures c in Filter(s, f) <==> c in s && f(c) {
      FilterMembership(s, f, c);
    }
  }

  /** Saving a preset makes its category's section visible. */
  lemma SavedCategoryVisible(p: Panel, currentStyle: Option<Style>, id: string)
    requires currentStyle.Some? && !IsBlank(p.newPresetName)
    ensures CategoryVisible(SavePreset(p, currentStyle, id).0, p.newPresetCategory)
  {
    var r := SavePreset(p, currentStyle, id);
    assert r.1.value in AllPresets(r.0);
  }
}
