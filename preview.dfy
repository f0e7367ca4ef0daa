/** The print preview: the page at its own zoom, showing the visible
    elements with their text, fields and tables filled in. */
module PreviewPanel {
  import opened Common
  import opened Document
  import opened ListOps
  import EditorCanvas

  const InitialZoom := 80
  const MinZoom := 25
  const MaxZoom := 200
  const ZoomStep := 10

  /** The preview's own copy of the page size table. */
  function PreviewPageSizes(pageSize: string): Option<EditorCanvas.Dims> {
    if pageSize == "A4" then Some(EditorCanvas.Dims(595.0, 842.0))
    else if pageSize == "Letter" then Some(EditorCanvas.Dims(612.0, 792.0))
    else if pageSize == "Legal" then Some(EditorCanvas.Dims(612.0, 1008.0))
    else None
  }

  /** The preview's page, with the same landscape swap as the canvas. */
  function PreviewPage(pageSize: string, orientation: string): (d: Option<EditorCanvas.Dims>)
    ensures d == EditorCanvas.PageDimensions(pageSize, orientation)
  {
    match PreviewPageSizes(pageSize)
    case None => None
    case Some(size) =>
      var isLandscape := orientation == "landscape";
      Some(EditorCanvas.Dims(if isLandscape then size.height else size.width, if isLandscape then size.width else size.height))
  }

  /** The zoom-out button: `Math.max(25, previewZoom - 10)`. */
  function ZoomOut(z: int): (r: int)
    ensures z - ZoomStep >= MinZoom ==> r == z - ZoomStep
    ensures z - ZoomStep < MinZoom ==> r == MinZoom
  {
    MaxInt(MinZoom, z - ZoomStep)
  }

  /** The zoom-in button: `Math.min(200, previewZoom + 10)`. */
  function ZoomIn(z: int): (r: int)
    ensures z + ZoomStep <= MaxZoom ==> r == z + ZoomStep
    ensures z + ZoomStep > MaxZoom ==> r == MaxZoom
  {
    MinInt(MaxZoom, z + ZoomStep)
  }

  /** The zoom after pressing the buttons in order, `true` for zoom in. */
  function ZoomAfter(z: int, presses: seq<bool>): int
    decreases |presses|
  {
    if presses == [] then z
    else ZoomAfter(if presses[0] then ZoomIn(z) else ZoomOut(z), presses[1..])
  }

  /** From its initial 80%, the preview zoom stays within 25% to 200%
      whatever buttons are pressed. */
  lemma {:induction false} ZoomStaysInRange(z: int, presses: seq<bool>)
    requires MinZoom <= z <= MaxZoom
    ensures MinZoom <= ZoomAfter(z, presses) <= MaxZoom
    decreases |presses|
  {
    if presses != [] {
      ZoomStaysInRange(if presses[0] then ZoomIn(z) else ZoomOut(z), presses[1..]);
    }
  }

  lemma InitialZoomInRange(presses: seq<bool>)
    ensures MinZoom <= ZoomAfter(InitialZoom, presses) <= MaxZoom
  {
    ZoomStaysInRange(InitialZoom, presses);
  }

  function Shown(e: Element): bool { e.visible != Some(false) }

  /** The elements drawn, in array order: all but those with
      `visible === false`. */
  function VisibleElements(es: seq<Element>): (r: seq<Element>)
    ensures forall e :: e in r <==> e in es && e.visible != Some(false)
    ensures multiset(r) <= multiset(es)
  {
    var r := Filter(es, Shown);
    forall e ensures e in r <==> e in es && e.visible != Some(false) {
      FilterMembership(es, Shown, e);
    }
    r
  }

  /** A dynamic field shows `element.dynamicField || element.content`. */
  function DynamicFieldText(e: Element): (text: Option<string>)
    ensures Truthy(e.dynamicField) ==> text == e.dynamicField
    ensures !Truthy(e.dynamicField) ==> text == e.content
  {
    if Truthy(e.dynamicField) then e.dynamicField else e.content
  }

  /** `cells[rowIndex]?.[colIndex]?.content || ''` */
  function CellText(cells: seq<seq<TableCell>>, row: nat, col: nat): (text: string)
    ensures row < |cells| && col < |cells[row]| ==> text == cells[row][col].content
    ensures !(row < |cells| && col < |cells[row]|) ==> text == ""
  {
    if row < |cells| && col < |cells[row]| && cells[row][col].content != "" then cells[row][col].content else ""
  }

  const DefaultRows := 3
  const DefaultCols := 3

  /** The table as drawn: `{ rows = 3, cols = 3, cells = [] } = tableData || {}`,
      one `<td>` per row and column. `None` is the throw of `Array` on a
      negative count: `Array(rows)` always runs, `Array(cols)` only inside
      the callback of a row, so a negative column count with no rows draws
      an empty table. */
  function TableGrid(tableData: Option<TableData>): (grid: Option<seq<seq<string>>>)
    ensures var rows := if tableData.Some? then tableData.value.rows else DefaultRows;
      var cols := if tableData.Some? then tableData.value.cols else DefaultCols;
      var cells := if tableData.Some? then tableData.value.cells else [];
      (grid.Some? <==> rows >= 0 && (rows == 0 || cols >= 0)) &&
      (grid.Some? ==>
        |grid.value| == rows &&
        forall r :: 0 <= r < rows ==>
          (|grid.value[r]| == cols && forall c :: 0 <= c < cols ==> grid.value[r][c] == CellText(cells, r, c)))
  {
    var rows := if tableData.Some? then tableData.value.rows else DefaultRows;
    var cols := if tableData.Some? then tableData.value.cols else DefaultCols;
    var cells := if tableData.Some? then tableData.value.cells else [];
    if rows < 0 || (rows > 0 && cols < 0) then None
    else Some(seq(rows, r requires 0 <= r < rows => seq(cols, c requires 0 <= c < cols => CellText(cells, r, c))))
  }

  /** An element without table data is drawn as an empty 3 by 3 table. */
  lemma DefaultTable()
    ensures TableGrid(None) == Some([["", "", ""], ["", "", ""], ["", "", ""]])
  {
    var g := TableGrid(None).value;
    var empty := ["", "", ""];
    forall r | 0 <= r < 3 ensures g[r] == empty {
      assert |g[r]| == 3;
    }
    assert g == [g[0], g[1], g[2]];
  }
}
