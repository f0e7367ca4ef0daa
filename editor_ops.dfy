/** The values the editor state hook computes when it builds or rearranges
    part of the document: the editor record itself and its defaults, a new
    element, a duplicate, layer moves, page deletion and duplication, the
    rotation cycle, the zoom clamp and find-and-replace over the elements. */
module EditorOps {
  import opened Common
  import opened Document
  import opened ListOps
  import opened TextReplace

  /** `EditorState` without its two stacks: what a snapshot stores. The
      multi-select list and the clipboard are never changed by the engine and
      are not part of this record. */
  datatype Session = Session(
    currentTemplate: Option<Template>,
    selectedElementId: Option<string>,
    zoom: real,
    showGrid: bool,
    snapToGrid: bool,
    gridSize: real,
    isDrawingMode: bool,
    drawingTool: DrawingTool,
    drawingColor: string,
    drawingWidth: real,
    activePanel: string,
    copiedStyle: Option<Style>)

  const MinZoom := 25.0
  const MaxZoom := 200.0

  predicate ZoomInRange(s: Session) {
    MinZoom <= s.zoom <= MaxZoom
  }

  /** `Math.max(25, Math.min(200, zoom))` */
  function ClampZoom(z: real): (r: real)
    ensures MinZoom <= r <= MaxZoom
    ensures MinZoom <= z <= MaxZoom ==> r == z
    ensures z < MinZoom ==> r == MinZoom
    ensures z > MaxZoom ==> r == MaxZoom
  {
    MaxReal(MinZoom, MinReal(MaxZoom, z))
  }

  /** `createDefaultPage(name)` with the identifier it draws. */
  function DefaultPage(id: string, name: string): Page {
    Page(id, name, [], Some("#ffffff"), Some(0))
  }

  /** `createDefaultTemplate()`: one empty page, A4 portrait. */
  function DefaultTemplate(templateId: string, pageId: string, now: Timestamp): (t: Template)
    ensures t.pages == Some([DefaultPage(pageId, "Page 1")]) && t.currentPageIndex == Some(0)
    ensures t.elements == [] && t.pageSize == "A4" && t.orientation == "portrait"
  {
    Template(
      templateId, "Untitled Template", Some(""), [], Some([DefaultPage(pageId, "Page 1")]), Some(0),
      "A4", "portrait", now, now, Some("document"),
      Some(DocumentProperties(Some(""), Some(""), None, None, Some("DocBuilder"),
        Some("DocBuilder PDF Engine"), Some(now), None, None)),
      None)
  }

  /** The template `createNewPresentation()` starts: the default template as
      a landscape Letter presentation. */
  function DefaultPresentation(templateId: string, pageId: string, now: Timestamp): (t: Template)
    ensures t == DefaultTemplate(templateId, pageId, now).(layoutType := t.layoutType, pageSize := t.pageSize, orientation := t.orientation)
    ensures t.layoutType == Some("presentation") && t.pageSize == "Letter" && t.orientation == "landscape"
  {
    DefaultTemplate(templateId, pageId, now).(layoutType := Some("presentation"), pageSize := "Letter", orientation := "landscape")
  }

  /** The state the hook starts from. */
  function InitialSession(templateId: string, pageId: string, now: Timestamp): (s: Session)
    ensures ZoomInRange(s) && s.selectedElementId.None?
  {
    Session(Some(DefaultTemplate(templateId, pageId, now)), None, 100.0, true, true, 20.0,
      false, Pen, "#000000", 2.0, "elements", None)
  }

  /** The style every new element starts with. */
  function DefaultStyle(t: ElementType): Style {
    map[
      "fontSize" := Num(if t == HeaderType then 24.0 else 14.0),
      "fontWeight" := Text(if t == HeaderType then "bold" else "normal"),
      "color" := Text("#1a1a1a"),
      "backgroundColor" := Text(if t == ShapeType then "#e5e7eb" else "transparent"),
      "textAlign" := Text("left"),
      "padding" := Num(8.0)]
  }

  /** The 3 x 3 grid of empty cells a new table gets. */
  function EmptyTable(): (d: TableData)
    ensures TableWellShaped(d) && d.rows == 3 && d.cols == 3
    ensures forall r, c :: 0 <= r < 3 && 0 <= c < 3 ==> d.cells[r][c].content == ""
  {
    var cell := TableCell("", map[]);
    var row := [cell, cell, cell];
    TableData(3, 3, [row, row, row])
  }

  /** The element `addElement(type, position)` creates, given the id it draws
      and the clock reading. */
  function NewElement(t: ElementType, id: string, position: Option<Position>, now: Timestamp): (e: Element)
    ensures e.id == id && e.elementType == TypeName(t)
    ensures e.size == Some(DefaultSize(t))
    ensures e.position == Some(position.GetOr(Position(100.0, 100.0)))
    ensures e.content == Some(DefaultContent(t))
    ensures e.tableData.Some? <==> t == TableType
    ensures e.tableData.Some? ==> TableWellShaped(e.tableData.value) && e.tableData.value.rows == 3
    ensures e.formField.Some? <==> IsFormType(t)
    ensures e.annotation.Some? <==> IsAnnotationType(t)
    ensures e.annotation.Some? ==>
      e.annotation.value.status == "open" && (e.annotation.value.stampType.Some? <==> t == AnnotationStamp)
    ensures e.visible == Some(true) && e.locked == Some(false)
  {
    Element(
      id, TypeName(t), Some(position.GetOr(Position(100.0, 100.0))), Some(DefaultSize(t)),
      DefaultStyle(t), Some(DefaultContent(t)), None,
      if t == TableType then Some(EmptyTable()) else None,
      if t == ShapeType then Some("rectangle") else None,
      Some(true), Some(true), Some(false), None,
      if IsFormType(t) then Some(FormField("text", "Enter value...", false)) else None,
      if IsAnnotationType(t) then
        Some(Annotation("User", now, "open", if t == AnnotationStamp then Some("approved") else None))
      else None)
  }

  /** The copy `duplicateElement` appends: fresh id, offset by 20 in both
      directions. `None` when the element has no position, where reading
      `element.position.x` throws. */
  function DuplicateOf(e: Element, newId: string): (r: Option<Element>)
    ensures r.None? <==> e.position.None?
    ensures r.Some? ==>
      r.value.id == newId &&
      r.value.position == Some(Position(e.position.value.x + 20.0, e.position.value.y + 20.0)) &&
      r.value.(id := e.id, position := e.position) == e
  {
    match e.position
    case None => None
    case Some(p) => Some(e.(id := newId, position := Some(Position(p.x + 20.0, p.y + 20.0))))
  }

  /** `bringToFront`: the others in their order, then the first element with the id. */
  function MoveToFront(es: seq<Element>, id: string): (r: Option<seq<Element>>)
    ensures r.None? <==> forall i :: 0 <= i < |es| ==> es[i].id != id
    ensures r.Some? ==>
      |r.value| > 0 && r.value[|r.value| - 1].id == id &&
      r.value[|r.value| - 1] == es[FindIndex(es, ElementId, id)] &&
      r.value[..|r.value| - 1] == RemoveKey(es, ElementId, id)
  {
    match Find(es, ElementId, id)
    case None => None
    case Some(e) => Some(RemoveKey(es, ElementId, id) + [e])
  }

  /** `sendToBack`: the first element with the id, then the others in their order. */
  function MoveToBack(es: seq<Element>, id: string): (r: Option<seq<Element>>)
    ensures r.None? <==> forall i :: 0 <= i < |es| ==> es[i].id != id
    ensures r.Some? ==>
      |r.value| > 0 && r.value[0].id == id && r.value[0] == es[FindIndex(es, ElementId, id)] &&
      r.value[1..] == RemoveKey(es, ElementId, id)
  {
    match Find(es, ElementId, id)
    case None => None
    case Some(e) => Some([e] + RemoveKey(es, ElementId, id))
  }

  /** With a unique id, moving to the front or to the back only rearranges
      the layers. */
  lemma MovesPermute(es: seq<Element>, id: string)
    requires CountKey(es, ElementId, id) == 1
    ensures MoveToFront(es, id).Some? && multiset(MoveToFront(es, id).value) == multiset(es)
    ensures MoveToBack(es, id).Some? && multiset(MoveToBack(es, id).value) == multiset(es)
  {
    SingleMatch(es, ElementId, id);
    KeySplit(es, ElementId, id);
  }

  /** With duplicated ids the filter drops every copy but re-adds only the
      first, so the layer list shrinks by the extra copies. */
  lemma MovesDropDuplicates(es: seq<Element>, id: string)
    requires CountKey(es, ElementId, id) >= 1
    ensures MoveToFront(es, id).Some? && |MoveToFront(es, id).value| == |es| - CountKey(es, ElementId, id) + 1
  {
    KeySplit(es, ElementId, id);
    assert |multiset(RemoveKey(es, ElementId, id))| + |multiset(Filter(es, HasKey(ElementId, id)))| == |multiset(es)|;
    FilterMembership(es, HasKey(ElementId, id), es[FindIndex(es, ElementId, id)]);
  }

  /** `rotations[(rotations.indexOf(rotation || 0) + 1) % 4]`: a rotation that
      is not one of the four right angles restarts the cycle at 0. */
  function NextRotation(rotation: Option<int>): (r: int)
    ensures r in {0, 90, 180, 270}
    ensures rotation.GetOr(0) !in {0, 90, 180, 270} ==> r == 0
  {
    var current := rotation.GetOr(0);
    if current == 0 then 90
    else if current == 90 then 180
    else if current == 180 then 270
    else 0
  }

  /** Four rotations bring a page at a right angle back to where it was. */
  lemma FourRotations(rotation: Option<int>)
    requires rotation.GetOr(0) in {0, 90, 180, 270}
    ensures NextRotation(Some(NextRotation(Some(NextRotation(Some(NextRotation(rotation))))))) == rotation.GetOr(0)
  {
  }

  /** `Math.min(currentPageIndex || 0, newPages.length - 1)` */
  function PageIndexAfterDelete(currentPageIndex: Option<int>, remaining: nat): (r: int)
    ensures r <= remaining - 1 && r <= currentPageIndex.GetOr(0)
    ensures currentPageIndex.GetOr(0) < remaining ==> r == currentPageIndex.GetOr(0)
  {
    MinInt(currentPageIndex.GetOr(0), remaining - 1)
  }

  predicate DistinctIds(pages: seq<Page>) {
    forall i, j :: 0 <= i < j < |pages| ==> pages[i].id != pages[j].id
  }

  /** Deleting one page out of at least two with distinct ids leaves at least
      one page, and a valid current index stays valid. */
  lemma DeletePageKeepsOne(pages: seq<Page>, id: string, currentPageIndex: Option<int>)
    requires |pages| >= 2 && DistinctIds(pages)
    requires currentPageIndex.GetOr(0) >= 0
    ensures var rest := RemoveKey(pages, PageId, id);
      |rest| >= |pages| - 1 >= 1 &&
      0 <= PageIndexAfterDelete(currentPageIndex, |rest|) < |rest|
  {
    var rest := RemoveKey(pages, PageId, id);
    KeySplit(pages, PageId, id);
    AtMostOneWithId(pages, id);
    assert |multiset(rest)| + |multiset(Filter(pages, HasKey(PageId, id)))| == |multiset(pages)|;
  }

  lemma {:induction false} AtMostOneWithId(pages: seq<Page>, id: string)
    requires DistinctIds(pages)
    ensures CountKey(pages, PageId, id) <= 1
    decreases |pages|
  {
    if pages != [] {
      var t := pages[1..];
      if pages[0].id == id {
        assert forall i :: 0 <= i < |t| ==> t[i].id != id by {
          forall i | 0 <= i < |t| ensures t[i].id != id {
            assert t[i] == pages[i + 1];
          }
        }
        NoKeyNoCount(t, PageId, id);
      } else {
        assert DistinctIds(t) by {
          forall i, j | 0 <= i < j < |t| ensures t[i].id != t[j].id {
            assert t[i] == pages[i + 1] && t[j] == pages[j + 1];
          }
        }
        AtMostOneWithId(t, id);
        assert PageId(pages[0]) != id;
        assert !HasKey(PageId, id)(pages[0]);
        assert Filter(pages, HasKey(PageId, id)) == Filter(t, HasKey(PageId, id));
      }
    }
  }

  /** The page `duplicatePage` inserts: fresh page id, name suffixed with
      " (Copy)", and every element copied under the id the oracle gives its
      position. */
  function CopyPage(p: Page, newId: string, elementIds: nat -> string): (r: Page)
    ensures r.id == newId && r.name == p.name + " (Copy)"
    ensures |r.elements| == |p.elements|
    ensures forall i :: 0 <= i < |p.elements| ==>
      r.elements[i].id == elementIds(i) && r.elements[i].(id := p.elements[i].id) == p.elements[i]
    ensures r.backgroundColor == p.backgroundColor && r.rotation == p.rotation
  {
    p.(id := newId, name := p.name + " (Copy)",
       elements := seq(|p.elements|, i requires 0 <= i < |p.elements| => p.elements[i].(id := elementIds(i))))
  }

  /** `elements.map(el => el.id === id ? { ...el, ...updates } : el)` */
  function PatchWhere(es: seq<Element>, id: string, p: ElementPatch): (r: seq<Element>)
    ensures |r| == |es|
    ensures forall i :: 0 <= i < |es| && es[i].id != id ==> r[i] == es[i]
    ensures forall i :: 0 <= i < |es| && es[i].id == id ==> r[i] == ApplyPatch(es[i], p)
  {
    seq(|es|, i requires 0 <= i < |es| => if es[i].id == id then ApplyPatch(es[i], p) else es[i])
  }

  /** Repeating an update changes nothing more: an element the first pass
      patched either no longer carries the id or is patched to the same value. */
  lemma PatchWhereIdempotent(es: seq<Element>, id: string, p: ElementPatch)
    ensures PatchWhere(PatchWhere(es, id, p), id, p) == PatchWhere(es, id, p)
  {
    var once := PatchWhere(es, id, p);
    forall i | 0 <= i < |es| ensures PatchWhere(once, id, p)[i] == once[i] {
      if es[i].id == id {
        PatchLaws(es[i], p);
      }
    }
  }

  /** `pages.map(p => p.id === pageId ? { ...p, name } : p)` */
  function RenamePages(pages: seq<Page>, id: string, name: string): (r: seq<Page>)
    ensures |r| == |pages|
    ensures forall i :: 0 <= i < |pages| ==>
      r[i] == if pages[i].id == id then pages[i].(name := name) else pages[i]
  {
    seq(|pages|, i requires 0 <= i < |pages| => if pages[i].id == id then pages[i].(name := name) else pages[i])
  }

  /** `rotatePage`'s map: the pages with the id turn a quarter, the rest stay. */
  function RotatePages(pages: seq<Page>, id: string): (r: seq<Page>)
    ensures |r| == |pages|
    ensures forall i :: 0 <= i < |pages| ==>
      r[i] == if pages[i].id == id then pages[i].(rotation := Some(NextRotation(pages[i].rotation))) else pages[i]
  {
    seq(|pages|, i requires 0 <= i < |pages| =>
      if pages[i].id == id then pages[i].(rotation := Some(NextRotation(pages[i].rotation))) else pages[i])
  }

  /** Rotating the same page four times restores every page that started at a
      right angle. */
  lemma RotateFourTimes(pages: seq<Page>, id: string)
    requires forall i :: 0 <= i < |pages| ==> pages[i].rotation.GetOr(0) in {0, 90, 180, 270}
    ensures forall i :: 0 <= i < |pages| ==>
      RotatePages(RotatePages(RotatePages(RotatePages(pages, id), id), id), id)[i] ==
      pages[i].(rotation := if pages[i].id == id then Some(pages[i].rotation.GetOr(0)) else pages[i].rotation)
  {
    forall i | 0 <= i < |pages| ensures
      RotatePages(RotatePages(RotatePages(RotatePages(pages, id), id), id), id)[i] ==
      pages[i].(rotation := if pages[i].id == id then Some(pages[i].rotation.GetOr(0)) else pages[i].rotation)
    {
      if pages[i].id == id {
        FourRotations(pages[i].rotation);
      }
    }
  }

  /** Whether find-and-replace touches an element: a non-empty string
      content that includes the text. */
  predicate Hits(e: Element, find: string) {
    Truthy(e.content) && Contains(e.content.value, find)
  }

  /** One element after find-and-replace: its content split on the text and
      joined with the replacement, everything else unchanged. */
  function ReplaceInElement(e: Element, find: string, replacement: string): (r: Element)
    requires find != ""
    ensures Hits(e, find) ==> r == e.(content := Some(Join(Split(e.content.value, find), replacement)))
    ensures !Hits(e, find) ==> r == e
  {
    if Hits(e, find) then
      SplitJoinIsReplaceAll(e.content.value, find, replacement);
      e.(content := Some(ReplaceAll(e.content.value, find, replacement)))
    else e
  }

  function ReplaceInElements(es: seq<Element>, find: string, replacement: string): (r: seq<Element>)
    requires find != ""
    ensures |r| == |es|
    ensures forall i :: 0 <= i < |es| ==> r[i] == ReplaceInElement(es[i], find, replacement)
  {
    seq(|es|, i requires 0 <= i < |es| => ReplaceInElement(es[i], find, replacement))
  }

  /** The `replacements` counter: how many elements were touched. */
  function HitCount(es: seq<Element>, find: string): (n: nat)
    ensures n <= |es|
    decreases |es|
  {
    if es == [] then 0
    else HitCount(es[..|es| - 1], find) + (if Hits(es[|es| - 1], find) then 1 else 0)
  }

  /** No touched element means no change at all. */
  lemma {:induction false} NoHitsNoChange(es: seq<Element>, find: string, replacement: string)
    requires find != "" && HitCount(es, find) == 0
    ensures ReplaceInElements(es, find, replacement) == es
    decreases |es|
  {
    if es != [] {
      NoHitsNoChange(es[..|es| - 1], find, replacement);
      assert forall i :: 0 <= i < |es| - 1 ==> es[..|es| - 1][i] == es[i];
    }
  }

  /** Counting hits over a prefix one element longer. */
  lemma HitCountStep(es: seq<Element>, i: nat, find: string)
    requires i < |es|
    ensures HitCount(es[..i + 1], find) == HitCount(es[..i], find) + (if Hits(es[i], find) then 1 else 0)
  {
    assert es[..i + 1][..i] == es[..i];
  }
}
