/** The layers list: one row per element, topmost first, with an icon, a
    caption, visibility and lock toggles, and up/down buttons that call the
    engine's `reorderElement`. */
module LayersPanel {
  import opened Common
  import opened Document
  import EditorState

  const DefaultIcon := "●"
  const PreviewLength := 20

  const Icons: map<string, string> := map[
    "text" := "T", "header" := "H", "footer" := "F", "image" := "🖼", "table" := "▦",
    "shape" := "◼", "divider" := "—", "list" := "☰", "signature" := "✍",
    "dynamic-field" := "{ }", "barcode" := "▮▯", "page-number" := "#", "watermark" := "💧",
    "form-text" := "▭", "form-checkbox" := "☑", "form-radio" := "◉", "form-dropdown" := "▼",
    "form-signature" := "✍", "annotation-comment" := "💬", "annotation-note" := "📝",
    "annotation-stamp" := "🔖", "annotation-highlight" := "🖍", "drawing" := "✏"]

  /** The fixed labels; a shape's caption depends on its `shapeType`. */
  const TypeLabels: map<string, string> := map[
    "text" := "Text", "header" := "Header", "footer" := "Footer", "image" := "Image",
    "table" := "Table", "divider" := "Divider", "list" := "List", "signature" := "Signature",
    "dynamic-field" := "Dynamic Field", "barcode" := "Barcode", "page-number" := "Page Number",
    "watermark" := "Watermark", "form-text" := "Text Input", "form-checkbox" := "Checkbox",
    "form-radio" := "Radio Button", "form-dropdown" := "Dropdown", "form-signature" := "Signature Field",
    "annotation-comment" := "Comment", "annotation-note" := "Note", "annotation-stamp" := "Stamp",
    "annotation-highlight" := "Highlight", "drawing" := "Drawing"]

  /** `getElementIcon(type)` */
  function ElementIcon(elementType: string): (icon: string)
    ensures elementType in Icons ==> icon == Icons[elementType]
    ensures elementType !in Icons ==> icon == DefaultIcon
  {
    if elementType in Icons && Icons[elementType] != "" then Icons[elementType] else DefaultIcon
  }

  /** `s.charAt(0).toUpperCase() + s.slice(1)` */
  function Capitalize(s: string): (r: string)
    ensures |r| == |s|
    ensures s != [] ==> r[0] == ToUpperAscii(s[0]) && r[1..] == s[1..]
  {
    if s == [] then [] else [ToUpperAscii(s[0])] + s[1..]
  }

  /** `typeLabels[element.type] || element.type` */
  function TypeLabel(e: Element): (caption: string)
    ensures e.elementType == "shape" ==> caption == (if Truthy(e.shapeType) then Capitalize(e.shapeType.value) else "Shape")
    ensures e.elementType != "shape" && e.elementType in TypeLabels ==> caption == TypeLabels[e.elementType]
    ensures e.elementType != "shape" && e.elementType !in TypeLabels ==> caption == e.elementType
  {
    var mapped :=
      if e.elementType == "shape" then Some(if Truthy(e.shapeType) then Capitalize(e.shapeType.value) else "Shape")
      else if e.elementType in TypeLabels then Some(TypeLabels[e.elementType])
      else None;
    if mapped.Some? && mapped.value != "" then mapped.value else e.elementType
  }

  /** `getElementLabel(element)` */
  function ElementLabel(e: Element): (caption: string)
    ensures Truthy(e.layerName) ==> caption == e.layerName.value
    ensures !Truthy(e.layerName) && !Truthy(e.content) ==> caption == TypeLabel(e)
    ensures !Truthy(e.layerName) && Truthy(e.content) ==>
      var c := e.content.value;
      caption == TypeLabel(e) + ": \"" + c[..MinInt(|c|, PreviewLength)] + (if |c| > PreviewLength then "..." else "") + "\""
  {
    if Truthy(e.layerName) then e.layerName.value
    else
      var caption := TypeLabel(e);
      var preview := if e.content.Some? then Some(e.content.value[..MinInt(|e.content.value|, PreviewLength)]) else None;
      if Truthy(preview) then
        caption + ": \"" + preview.value + (if |e.content.value| > PreviewLength then "..." else "") + "\""
      else caption
  }

  /** Every row has a non-empty icon, and a non-empty caption unless the element
      type itself is empty. */
  lemma RowsNeverBlank(e: Element)
    ensures ElementIcon(e.elementType) != ""
    ensures e.elementType != "" ==> ElementLabel(e) != ""
  {
    assert forall t :: t in Icons ==> Icons[t] != "";
    assert forall t :: t in TypeLabels ==> TypeLabels[t] != "";
  }

  /** A content preview is cut at twenty characters, and marked with an
      ellipsis exactly when something was cut. */
  lemma PreviewBounded(e: Element)
    requires !Truthy(e.layerName) && Truthy(e.content)
    ensures var caption := ElementLabel(e);
      var prefix := TypeLabel(e) + ": \"";
      StartsWith(caption, prefix) && |caption| <= |prefix| + PreviewLength + 4 &&
      (|e.content.value| > PreviewLength <==> |caption| == |prefix| + PreviewLength + 4)
  {
    var caption := ElementLabel(e);
    var prefix := TypeLabel(e) + ": \"";
    assert caption[..|prefix|] == prefix;
  }

  /** `[...elements].reverse()`: the topmost element first. */
  function DisplayOrder(es: seq<Element>): (rows: seq<Element>)
    ensures |rows| == |es|
    ensures forall d :: 0 <= d < |es| ==> rows[d] == es[|es| - 1 - d]
  {
    seq(|es|, d requires 0 <= d < |es| => es[|es| - 1 - d])
  }

  lemma DisplayOrderInvolution(es: seq<Element>)
    ensures DisplayOrder(DisplayOrder(es)) == es
    ensures multiset(DisplayOrder(es)) == multiset(es)
  {
    var rows := DisplayOrder(es);
    assert DisplayOrder(rows) == es;
    ReversePermutes(es);
  }

  lemma {:induction false} ReversePermutes(es: seq<Element>)
    ensures multiset(DisplayOrder(es)) == multiset(es)
    decreases |es|
  {
    if es != [] {
      var init := es[..|es| - 1];
      ReversePermutes(init);
      assert DisplayOrder(es) == [es[|es| - 1]] + DisplayOrder(init);
      assert es == init + [es[|es| - 1]];
    }
  }

  /** The 'up' button is disabled on the first row, 'down' on the last. */
  predicate ButtonDisabled(d: nat, rows: nat, direction: EditorState.Direction) {
    if direction == EditorState.Up then d == 0 else d == rows - 1
  }

  /** A button is disabled exactly when the engine would refuse the move: row
      `d` shows the element at array index `n - 1 - d`, and 'up' swaps it
      with the next index, 'down' with the previous one. */
  lemma ButtonsMatchEngine(es: seq<Element>, d: nat, direction: EditorState.Direction)
    requires d < |es|
    ensures var i := |es| - 1 - d;
      var j := if direction == EditorState.Up then i + 1 else i - 1;
      DisplayOrder(es)[d] == es[i] && (ButtonDisabled(d, |es|, direction) <==> !(0 <= j < |es|))
  {
  }

  /** The visibility button's update: `visible === false ? true : false`. */
  function VisibilityToggle(visible: Option<bool>): (v: bool)
    ensures v <==> visible == Some(false)
  {
    if visible == Some(false) then true else false
  }

  /** The lock button's update: `!element.locked`. */
  function LockToggle(locked: Option<bool>): (v: bool)
    ensures v <==> locked != Some(true)
  {
    !(locked.Some? && locked.value)
  }

  /** Pressing either toggle flips what the row shows, and pressing it twice
      shows what it showed before. */
  lemma TogglesFlip(visible: Option<bool>, locked: Option<bool>)
    ensures (Some(VisibilityToggle(visible)) != Some(false)) <==> visible == Some(false)
    ensures VisibilityToggle(Some(VisibilityToggle(visible))) == (visible != Some(false))
    ensures (Some(LockToggle(locked)) == Some(true)) <==> locked != Some(true)
    ensures LockToggle(Some(LockToggle(locked))) == (locked == Some(true))
  {
  }
}
