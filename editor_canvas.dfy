/** The editing canvas: the paper sized from the template's page size and
    orientation, scaled by the zoom, with the elements drawn on it. */
module EditorCanvas {
  import opened Common
  import opened Document

  /** Page dimensions in points (72 per inch). */
  datatype Dims = Dims(width: real, height: real)

  /** `PAGE_SIZES[pageSize]`: `None` for a size the table lacks, where the
      render throws on reading `width` of `undefined`. */
  function PageSizes(pageSize: string): (d: Option<Dims>)
    ensures pageSize == "A4" ==> d == Some(Dims(595.0, 842.0))
    ensures pageSize == "Letter" ==> d == Some(Dims(612.0, 792.0))
    ensures pageSize == "Legal" ==> d == Some(Dims(612.0, 1008.0))
    ensures d.Some? <==> pageSize in {"A4", "Letter", "Legal"}
  {
    if pageSize == "A4" then Some(Dims(595.0, 842.0))
    else if pageSize == "Letter" then Some(Dims(612.0, 792.0))
    else if pageSize == "Legal" then Some(Dims(612.0, 1008.0))
    else None
  }

  /** The page as drawn: landscape swaps the two sides. */
  function PageDimensions(pageSize: string, orientation: string): (d: Option<Dims>)
    ensures d.Some? <==> PageSizes(pageSize).Some?
    ensures d.Some? && orientation == "landscape" ==>
      d.value == Dims(PageSizes(pageSize).value.height, PageSizes(pageSize).value.width)
    ensures d.Some? && orientation != "landscape" ==> d.value == PageSizes(pageSize).value
  {
    match PageSizes(pageSize)
    case None => None
    case Some(size) =>
      var isLandscape := orientation == "landscape";
      Some(Dims(if isLandscape then size.height else size.width, if isLandscape then size.width else size.height))
  }

  /** Every known page is taller than wide in portrait and wider than tall in
      landscape, and turning it twice is the identity on its sides. */
  lemma OrientationShapes(pageSize: string)
    requires PageSizes(pageSize).Some?
    ensures PageDimensions(pageSize, "portrait").value.width < PageDimensions(pageSize, "portrait").value.height
    ensures PageDimensions(pageSize, "landscape").value.width > PageDimensions(pageSize, "landscape").value.height
    ensures PageDimensions(pageSize, "landscape").value.width == PageDimensions(pageSize, "portrait").value.height
    ensures PageDimensions(pageSize, "landscape").value.height == PageDimensions(pageSize, "portrait").value.width
  {
  }

  /** The paper's on-screen size at `zoom` percent. */
  function PaperSize(d: Dims, zoom: real): (p: Dims)
    ensures p.width * 100.0 == d.width * zoom && p.height * 100.0 == d.height * zoom
  {
    var scale := zoom / 100.0;
    Dims(d.width * scale, d.height * scale)
  }

  /** Scaling keeps the page's proportions, and 100% is the page itself. */
  lemma PaperProportions(d: Dims, zoom: real)
    ensures var p := PaperSize(d, zoom); p.width * d.height == p.height * d.width
    ensures PaperSize(d, 100.0) == d
  {
    var p := PaperSize(d, zoom);
    assert p.width == d.width * (zoom / 100.0);
    assert p.height == d.height * (zoom / 100.0);
  }

  /** One element on the paper, with whether it is drawn selected. */
  datatype Placed = Placed(element: Element, isSelected: bool)

  datatype View =
    | Placeholder                                   // "No template loaded"
    | Paper(paper: Dims, page: Dims, elements: seq<Placed>)
    | UnknownPageSize                               // the render throws

  /** What the canvas shows for the current template. A click on the
      background passes `null` as the selection, after which no element is
      drawn selected. */
  function CanvasView(template: Option<Template>, selectedElementId: Option<string>, zoom: real): (v: View)
    ensures template.None? <==> v.Placeholder?
    ensures v.UnknownPageSize? <==> template.Some? && PageSizes(template.value.pageSize).None?
    ensures v.Paper? ==>
      var page := PageDimensions(template.value.pageSize, template.value.orientation).value;
      v.page == page && v.paper == PaperSize(page, zoom) &&
      |v.elements| == |template.value.elements| &&
      forall i :: 0 <= i < |v.elements| ==>
        v.elements[i].element == template.value.elements[i] &&
        (v.elements[i].isSelected <==> selectedElementId == Some(template.value.elements[i].id))
    ensures v.Paper? && selectedElementId.None? ==>
      forall i :: 0 <= i < |v.elements| ==> !v.elements[i].isSelected
  {
    if template.None? then Placeholder
    else
      var t := template.value;
      match PageDimensions(t.pageSize, t.orientation)
      case None => UnknownPageSize
      case Some(page) =>
        Paper(PaperSize(page, zoom), page,
          seq(|t.elements|, i requires 0 <= i < |t.elements| =>
            Placed(t.elements[i], selectedElementId == Some(t.elements[i].id))))
  }

  /** At most one element is drawn selected when ids are distinct. */
  lemma OneSelected(template: Template, selectedElementId: Option<string>, zoom: real, i: nat, j: nat)
    requires var v := CanvasView(Some(template), selectedElementId, zoom); v.Paper? && i < |v.elements| && j < |v.elements|
    requires template.elements[i].id != template.elements[j].id
    ensures var v := CanvasView(Some(template), selectedElementId, zoom);
      !(v.elements[i].isSelected && v.elements[j].isSelected)
  {
  }
}
