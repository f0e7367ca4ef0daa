/** The editor state hook as an object: the current editor record, the undo
    and redo stacks of stack-less snapshots, the saved-template list and the
    freehand paths. Each method is one operation of the hook; the undoable
    ones first push a snapshot of the present and then apply their change,
    which is how the hook's two queued state updates run one after the other.
    Fresh identifiers and clock readings are passed in. */
module EditorState {
  import opened Common
  import opened Document
  import opened UndoHistory
  import opened ListOps
  import opened EditorOps

  datatype Direction = Up | Down

  /** The elements the element operations act on: `currentTemplate.elements`,
      the legacy list, not the current page's. */
  function ElementsOf(ct: Option<Template>): seq<Element> {
    if ct.Some? then ct.value.elements else []
  }

  /** `currentTemplate ? { ...currentTemplate, elements, updatedAt } : null` */
  function WithElements(ct: Option<Template>, es: seq<Element>, now: Timestamp): (r: Option<Template>)
    ensures r.Some? == ct.Some?
    ensures r.Some? ==> r.value.elements == es && r.value == ct.value.(elements := es, updatedAt := now)
  {
    if ct.Some? then Some(ct.value.(elements := es, updatedAt := now)) else None
  }

  /** The pages of a template that has them. */
  predicate HasPages(ct: Option<Template>) {
    ct.Some? && ct.value.pages.Some?
  }

  function PagesOf(ct: Option<Template>): seq<Page>
    requires HasPages(ct)
  {
    ct.value.pages.value
  }

  /** The template after `duplicatePage` copied page `k`: the copy right after
      it, and current. */
  function WithPageCopy(t: Template, k: nat, newPageId: string, elementIds: nat -> string, now: Timestamp): (r: Template)
    requires HasPages(Some(t)) && k < |PagesOf(Some(t))|
    ensures HasPages(Some(r)) && |PagesOf(Some(r))| == |PagesOf(Some(t))| + 1
    ensures r.currentPageIndex == Some(k + 1)
    ensures PagesOf(Some(r))[k + 1] == CopyPage(PagesOf(Some(t))[k], newPageId, elementIds)
  {
    var pages := PagesOf(Some(t));
    t.(pages := Some(InsertAfter(pages, k, CopyPage(pages[k], newPageId, elementIds))),
       currentPageIndex := Some(k + 1),
       updatedAt := now)
  }

  /** The loop of `findAndReplace`: every element rewritten, and how many
      of them contained the text. */
  method ReplaceEach(elements: seq<Element>, findText: string, replaceText: string)
    returns (updated: seq<Element>, replacements: nat)
    requires findText != ""
    ensures updated == ReplaceInElements(elements, findText, replaceText)
    ensures replacements == HitCount(elements, findText)
  {
    updated, replacements := [], 0;
    var i := 0;
    while i < |elements|
      invariant 0 <= i <= |elements|
      invariant |updated| == i
      invariant forall k :: 0 <= k < i ==> updated[k] == ReplaceInElement(elements[k], findText, replaceText)
      invariant replacements == HitCount(elements[..i], findText)
    {
      var el := elements[i];
      HitCountStep(elements, i, findText);
      if Hits(el, findText) {
        replacements := replacements + 1;
      }
      updated := updated + [ReplaceInElement(el, findText, replaceText)];
      i := i + 1;
    }
    assert elements[..i] == elements;
  }

  class Editor {
    var session: Session
    var undoStack: seq<Session>
    var redoStack: seq<Session>
    var templates: seq<Template>
    var drawingPaths: seq<DrawingPath>

    function Hist(): History<Session>
      reads this
    {
      History(session, undoStack, redoStack)
    }

    /** The stacks hold at most 20 snapshots between them, and every state,
        present or stored, has its zoom in range. */
    ghost predicate Valid()
      reads this
    {
      Bounded(Hist()) && ZoomInRange(session) &&
      (forall i :: 0 <= i < |undoStack| ==> ZoomInRange(undoStack[i])) &&
      (forall i :: 0 <= i < |redoStack| ==> ZoomInRange(redoStack[i]))
    }

    /** The operation pushed one snapshot of the state it started from. */
    twostate predicate Pushed()
      reads this
    {
      undoStack == Push(old(Hist())).undo && redoStack == [] &&
      templates == old(templates) && drawingPaths == old(drawingPaths)
    }

    /** The operation left history, saved templates and paths alone. */
    twostate predicate OnlySession()
      reads this
    {
      undoStack == old(undoStack) && redoStack == old(redoStack) &&
      templates == old(templates) && drawingPaths == old(drawingPaths)
    }

    constructor (templateId: string, pageId: string, now: Timestamp)
      ensures Valid() && session == InitialSession(templateId, pageId, now)
      ensures undoStack == [] && redoStack == [] && templates == [] && drawingPaths == []
    {
      session := InitialSession(templateId, pageId, now);
      undoStack := [];
      redoStack := [];
      templates := [];
      drawingPaths := [];
    }

    /** `addToUndoStack` */
    method PushUndo()
      requires Valid()
      modifies this
      ensures Valid() && Pushed() && session == old(session)
    {
      var kept := LastN(undoStack, MaxUndo - 1);
      assert forall i :: 0 <= i < |kept| ==> kept[i] == undoStack[|undoStack| - |kept| + i];
      undoStack := kept + [session];
      redoStack := [];
    }

    /** Replace the current template, leaving everything else alone. */
    method SetTemplate(ct: Option<Template>)
      requires Valid()
      modifies this
      ensures Valid() && OnlySession() && session == old(session).(currentTemplate := ct)
    {
      session := session.(currentTemplate := ct);
    }

    /** Push a snapshot, then replace the current template. */
    method Commit(ct: Option<Template>)
      requires Valid()
      modifies this
      ensures Valid() && Pushed() && session == old(session).(currentTemplate := ct)
    {
      PushUndo();
      SetTemplate(ct);
    }

    /** `undo` */
    method Undo()
      requires Valid()
      modifies this
      ensures Valid() && Hist() == UndoHistory.Undo(old(Hist()))
      ensures templates == old(templates) && drawingPaths == old(drawingPaths)
    {
      if |undoStack| == 0 {
        return;
      }
      var previous := undoStack[|undoStack| - 1];
      redoStack := redoStack + [session];
      session := previous;
      undoStack := undoStack[..|undoStack| - 1];
    }

    /** `redo` */
    method Redo()
      requires Valid()
      modifies this
      ensures Valid() && Hist() == UndoHistory.Redo(old(Hist()))
      ensures templates == old(templates) && drawingPaths == old(drawingPaths)
    {
      if |redoStack| == 0 {
        return;
      }
      var next := redoStack[|redoStack| - 1];
      undoStack := undoStack + [session];
      session := next;
      redoStack := redoStack[..|redoStack| - 1];
    }

    /** `addElement(type, position)`: the new element is appended and
        selected (selected even when there is no template to append to). */
    method AddElement(t: ElementType, position: Option<Position>, id: string, now: Timestamp)
      returns (e: Element)
      requires Valid()
      modifies this
      ensures Valid() && Pushed()
      ensures e == NewElement(t, id, position, now)
      ensures session == old(session).(
        currentTemplate := WithElements(old(session.currentTemplate), ElementsOf(old(session.currentTemplate)) + [e], now),
        selectedElementId := Some(id))
      ensures old(session.currentTemplate).None? ==> SelectedElement().None?
      ensures old(session.currentTemplate).Some? &&
        (forall i :: 0 <= i < |old(session.currentTemplate).value.elements| ==> old(session.currentTemplate).value.elements[i].id != id)
        ==> SelectedElement() == Some(e)
    {
      PushUndo();
      e := NewElement(t, id, position, now);
      var ct := session.currentTemplate;
      session := session.(
        currentTemplate := WithElements(ct, ElementsOf(ct) + [e], now),
        selectedElementId := Some(id));
      assert SelectedElement() == Find(ElementsOf(session.currentTemplate), ElementId, id);
      if ct.Some? && forall i :: 0 <= i < |ct.value.elements| ==> ct.value.elements[i].id != id {
        FindAppended(ct.value.elements, ElementId, e);
      }
    }

    /** `updateElement(id, updates)`: every element with the id gets the update. */
    method UpdateElement(id: string, updates: ElementPatch, now: Timestamp)
      requires Valid()
      modifies this
      ensures Valid() && Pushed()
      ensures session == old(session).(currentTemplate :=
        WithElements(old(session.currentTemplate), PatchWhere(ElementsOf(old(session.currentTemplate)), id, updates), now))
    {
      PushUndo();
      var ct := session.currentTemplate;
      session := session.(currentTemplate := WithElements(ct, PatchWhere(ElementsOf(ct), id, updates), now));
    }

    /** `deleteElement(id)`: the selection is cleared only if it was that element. */
    method DeleteElement(id: string, now: Timestamp)
      requires Valid()
      modifies this
      ensures Valid() && Pushed()
      ensures session == old(session).(
        currentTemplate := WithElements(old(session.currentTemplate), RemoveKey(ElementsOf(old(session.currentTemplate)), ElementId, id), now),
        selectedElementId := if old(session.selectedElementId) == Some(id) then None else old(session.selectedElementId))
    {
      PushUndo();
      var ct := session.currentTemplate;
      var selection := if session.selectedElementId == Some(id) then None else session.selectedElementId;
      session := session.(
        currentTemplate := WithElements(ct, RemoveKey(ElementsOf(ct), ElementId, id), now),
        selectedElementId := selection);
    }

    /** `duplicateElement(id)`: an unknown id changes nothing and pushes
        nothing; a known element without a position throws after the push;
        otherwise the offset copy is appended and selected. */
    method DuplicateElement(id: string, newId: string, now: Timestamp)
      requires Valid()
      modifies this
      ensures Valid()
      ensures var found := Find(ElementsOf(old(session.currentTemplate)), ElementId, id);
        if found.None? then OnlySession() && session == old(session)
        else
          var copy := DuplicateOf(found.value, newId);
          Pushed() &&
          if copy.None? then session == old(session)
          else session == old(session).(
            currentTemplate := WithElements(old(session.currentTemplate), ElementsOf(old(session.currentTemplate)) + [copy.value], now),
            selectedElementId := Some(newId))
    {
      var ct := session.currentTemplate;
      var found := Find(ElementsOf(ct), ElementId, id);
      if found.None? {
        return;
      }
      PushUndo();
      var copy := DuplicateOf(found.value, newId);
      if copy.None? {
        return;
      }
      session := session.(
        currentTemplate := WithElements(ct, ElementsOf(ct) + [copy.value], now),
        selectedElementId := Some(newId));
    }

    /** `selectElement(id)` */
    method SelectElement(id: Option<string>)
      requires Valid()
      modifies this
      ensures Valid() && OnlySession() && session == old(session).(selectedElementId := id)
    {
      session := session.(selectedElementId := id);
    }

    /** `reorderElement(id, direction)`: 'up' swaps with the next element
        (drawn later, so on top), 'down' with the previous one; an unknown id
        or a move past either end leaves the elements as they were, after the
        snapshot has been pushed. */
    method ReorderElement(id: string, direction: Direction, now: Timestamp)
      requires Valid()
      modifies this
      ensures Valid() && Pushed()
      ensures var ct := old(session.currentTemplate);
        var es := ElementsOf(ct);
        var i := FindIndex(es, ElementId, id);
        var j := if direction == Up then i + 1 else i - 1;
        if ct.Some? && i >= 0 && 0 <= j < |es|
        then session == old(session).(currentTemplate := WithElements(ct, SwapAt(es, i, j), now))
        else session == old(session)
    {
      var ct := session.currentTemplate;
      var elements := ElementsOf(ct);
      var index := FindIndex(elements, ElementId, id);
      var newIndex := if direction == Up then index + 1 else index - 1;
      if ct.None? || index == -1 || newIndex < 0 || newIndex >= |elements| {
        PushUndo();
      } else {
        Commit(WithElements(ct, SwapAt(elements, index, newIndex), now));
      }
    }

    /** `bringToFront(id)` */
    method BringToFront(id: string, now: Timestamp)
      requires Valid()
      modifies this
      ensures Valid() && Pushed()
      ensures var ct := old(session.currentTemplate);
        var moved := MoveToFront(ElementsOf(ct), id);
        if ct.Some? && moved.Some?
        then session == old(session).(currentTemplate := WithElements(ct, moved.value, now))
        else session == old(session)
    {
      PushUndo();
      var ct := session.currentTemplate;
      if ct.None? {
        return;
      }
      var moved := MoveToFront(ct.value.elements, id);
      if moved.None? {
        return;
      }
      session := session.(currentTemplate := WithElements(ct, moved.value, now));
    }

    /** `sendToBack(id)` */
    method SendToBack(id: string, now: Timestamp)
      requires Valid()
      modifies this
      ensures Valid() && Pushed()
      ensures var ct := old(session.currentTemplate);
        var moved := MoveToBack(ElementsOf(ct), id);
        if ct.Some? && moved.Some?
        then session == old(session).(currentTemplate := WithElements(ct, moved.value, now))
        else session == old(session)
    {
      PushUndo();
      var ct := session.currentTemplate;
      if ct.None? {
        return;
      }
      var moved := MoveToBack(ct.value.elements, id);
      if moved.None? {
        return;
      }
      session := session.(currentTemplate := WithElements(ct, moved.value, now));
    }

    /** `setZoom(zoom)` */
    method SetZoom(zoom: real)
      requires Valid()
      modifies this
      ensures Valid() && OnlySession() && session == old(session).(zoom := ClampZoom(zoom))
    {
      session := session.(zoom := ClampZoom(zoom));
    }

    method ToggleGrid()
      requires Valid()
      modifies this
      ensures Valid() && OnlySession() && session == old(session).(showGrid := !old(session.showGrid))
    {
      session := session.(showGrid := !session.showGrid);
    }

    method ToggleSnapToGrid()
      requires Valid()
      modifies this
      ensures Valid() && OnlySession() && session == old(session).(snapToGrid := !old(session.snapToGrid))
    {
      session := session.(snapToGrid := !session.snapToGrid);
    }

    /** `updateTemplateName(name)`: not undoable. */
    method UpdateTemplateName(name: string, now: Timestamp)
      requires Valid()
      modifies this
      ensures Valid() && OnlySession()
      ensures var ct := old(session.currentTemplate);
        session == old(session).(currentTemplate :=
          if ct.Some? then Some(ct.value.(name := name, updatedAt := now)) else None)
    {
      var ct := session.currentTemplate;
      if ct.Some? {
        session := session.(currentTemplate := Some(ct.value.(name := name, updatedAt := now)));
      }
    }

    /** `saveTemplate()`: upsert the current template into the in-memory list. */
    method SaveTemplate()
      requires Valid()
      modifies this
      ensures Valid() && session == old(session)
      ensures undoStack == old(undoStack) && redoStack == old(redoStack) && drawingPaths == old(drawingPaths)
      ensures templates == if old(session.currentTemplate).None? then old(templates)
        else Upsert(old(templates), TemplateId, old(session.currentTemplate).value)
    {
      if session.currentTemplate.Some? {
        templates := Upsert(templates, TemplateId, session.currentTemplate.value);
      }
    }

    /** `loadTemplate(template)` */
    method LoadTemplate(t: Template)
      requires Valid()
      modifies this
      ensures Valid() && OnlySession()
      ensures session == old(session).(currentTemplate := Some(t), selectedElementId := None)
    {
      session := session.(currentTemplate := Some(t), selectedElementId := None);
    }

    /** `createNewTemplate()` */
    method CreateNewTemplate(templateId: string, pageId: string, now: Timestamp)
      requires Valid()
      modifies this
      ensures Valid() && OnlySession()
      ensures session == old(session).(
        currentTemplate := Some(DefaultTemplate(templateId, pageId, now)), selectedElementId := None)
    {
      session := session.(currentTemplate := Some(DefaultTemplate(templateId, pageId, now)), selectedElementId := None);
    }

    /** `createNewPresentation()` */
    method CreateNewPresentation(templateId: string, pageId: string, now: Timestamp)
      requires Valid()
      modifies this
      ensures Valid() && OnlySession()
      ensures session == old(session).(
        currentTemplate := Some(DefaultPresentation(templateId, pageId, now)), selectedElementId := None)
    {
      session := session.(currentTemplate := Some(DefaultPresentation(templateId, pageId, now)), selectedElementId := None);
    }

    /** `addPage()`: appends "Page <n+1>" and makes it current. */
    method AddPage(pageId: string, now: Timestamp)
      requires Valid()
      modifies this
      ensures Valid() && Pushed()
      ensures var ct := old(session.currentTemplate);
        if ct.None? then session == old(session)
        else
          var pages := ct.value.pages.GetOr([]);
          session == old(session).(currentTemplate := Some(ct.value.(
            pages := Some(pages + [DefaultPage(pageId, "Page " + NatToString(|pages| + 1))]),
            currentPageIndex := Some(|pages|),
            updatedAt := now)))
      ensures var ct := old(session.currentTemplate);
        ct.Some? ==> CurrentPage() == Some(DefaultPage(pageId, "Page " + NatToString(|ct.value.pages.GetOr([])| + 1)))
    {
      PushUndo();
      var ct := session.currentTemplate;
      if ct.None? {
        return;
      }
      var pages := ct.value.pages.GetOr([]);
      var pageCount := |pages|;
      var newPage := DefaultPage(pageId, "Page " + NatToString(pageCount + 1));
      session := session.(currentTemplate := Some(ct.value.(
        pages := Some(pages + [newPage]), currentPageIndex := Some(pageCount), updatedAt := now)));
    }

    /** `deletePage(pageId)`: refuses (the "last page" error) when at most one
        page is left; the snapshot is pushed either way. */
    method DeletePage(pageId: string, now: Timestamp) returns (refused: bool)
      requires Valid()
      modifies this
      ensures Valid() && Pushed()
      ensures var ct := old(session.currentTemplate);
        refused == (HasPages(ct) && |PagesOf(ct)| <= 1) &&
        if !HasPages(ct) || |PagesOf(ct)| <= 1 then session == old(session)
        else
          var rest := RemoveKey(PagesOf(ct), PageId, pageId);
          session == old(session).(currentTemplate := Some(ct.value.(
            pages := Some(rest),
            currentPageIndex := Some(PageIndexAfterDelete(ct.value.currentPageIndex, |rest|)),
            updatedAt := now)))
    {
      PushUndo();
      refused := false;
      var ct := session.currentTemplate;
      if ct.None? || ct.value.pages.None? {
        return;
      }
      var pages := ct.value.pages.value;
      if |pages| <= 1 {
        refused := true;
        return;
      }
      var newPages := RemoveKey(pages, PageId, pageId);
      var newIndex := MinInt(ct.value.currentPageIndex.GetOr(0), |newPages| - 1);
      session := session.(currentTemplate := Some(ct.value.(
        pages := Some(newPages), currentPageIndex := Some(newIndex), updatedAt := now)));
    }

    /** `duplicatePage(pageId)`: the copy goes right after the original and
        becomes current. */
    method DuplicatePage(pageId: string, newPageId: string, elementIds: nat -> string, now: Timestamp)
      requires Valid()
      modifies this
      ensures Valid() && Pushed()
      ensures var ct := old(session.currentTemplate);
        if !HasPages(ct) || FindIndex(PagesOf(ct), PageId, pageId) == -1 then session == old(session)
        else
          session == old(session).(currentTemplate :=
            Some(WithPageCopy(ct.value, FindIndex(PagesOf(ct), PageId, pageId), newPageId, elementIds, now)))
      ensures var ct := old(session.currentTemplate);
        HasPages(ct) && FindIndex(PagesOf(ct), PageId, pageId) != -1 ==>
          CurrentPage() == Some(CopyPage(PagesOf(ct)[FindIndex(PagesOf(ct), PageId, pageId)], newPageId, elementIds))
    {
      var ct := session.currentTemplate;
      if !HasPages(ct) || FindIndex(PagesOf(ct), PageId, pageId) == -1 {
        PushUndo();
        return;
      }
      Commit(Some(WithPageCopy(ct.value, FindIndex(PagesOf(ct), PageId, pageId), newPageId, elementIds, now)));
    }

    /** `reorderPage(pageId, direction)`: for pages 'up' is toward the start
        of the list, and the moved page becomes current. */
    method ReorderPage(pageId: string, direction: Direction, now: Timestamp)
      requires Valid()
      modifies this
      ensures Valid() && Pushed()
      ensures var ct := old(session.currentTemplate);
        if !HasPages(ct) then session == old(session)
        else
          var pages := PagesOf(ct);
          var i := FindIndex(pages, PageId, pageId);
          var j := if direction == Up then i - 1 else i + 1;
          if i >= 0 && 0 <= j < |pages|
          then session == old(session).(currentTemplate := Some(ct.value.(
            pages := Some(SwapAt(pages, i, j)), currentPageIndex := Some(j), updatedAt := now)))
          else session == old(session)
    {
      var ct := session.currentTemplate;
      if !HasPages(ct) {
        PushUndo();
        return;
      }
      var pages := PagesOf(ct);
      var index := FindIndex(pages, PageId, pageId);
      var newIndex := if direction == Up then index - 1 else index + 1;
      if index == -1 || newIndex < 0 || newIndex >= |pages| {
        PushUndo();
      } else {
        Commit(Some(ct.value.(
          pages := Some(SwapAt(pages, index, newIndex)), currentPageIndex := Some(newIndex), updatedAt := now)));
      }
    }

    /** `renamePage(pageId, name)`: not undoable. */
    method RenamePage(pageId: string, name: string, now: Timestamp)
      requires Valid()
      modifies this
      ensures Valid() && OnlySession()
      ensures var ct := old(session.currentTemplate);
        if !HasPages(ct) then session == old(session)
        else session == old(session).(currentTemplate := Some(ct.value.(
          pages := Some(RenamePages(PagesOf(ct), pageId, name)), updatedAt := now)))
    {
      var ct := session.currentTemplate;
      if ct.None? || ct.value.pages.None? {
        return;
      }
      session := session.(currentTemplate := Some(ct.value.(
        pages := Some(RenamePages(ct.value.pages.value, pageId, name)), updatedAt := now)));
    }

    /** `rotatePage(pageId)` */
    method RotatePage(pageId: string, now: Timestamp)
      requires Valid()
      modifies this
      ensures Valid() && Pushed()
      ensures var ct := old(session.currentTemplate);
        if !HasPages(ct) then session == old(session)
        else session == old(session).(currentTemplate := Some(ct.value.(
          pages := Some(RotatePages(PagesOf(ct), pageId)), updatedAt := now)))
    {
      PushUndo();
      var ct := session.currentTemplate;
      if ct.None? || ct.value.pages.None? {
        return;
      }
      session := session.(currentTemplate := Some(ct.value.(
        pages := Some(RotatePages(ct.value.pages.value, pageId)), updatedAt := now)));
    }

    /** `selectPage(pageId)`: makes the page current and clears the element
        selection; the template's timestamp is left alone. */
    method SelectPage(pageId: string)
      requires Valid()
      modifies this
      ensures Valid() && OnlySession()
      ensures var ct := old(session.currentTemplate);
        if !HasPages(ct) || FindIndex(PagesOf(ct), PageId, pageId) == -1 then session == old(session)
        else session == old(session).(
          currentTemplate := Some(ct.value.(currentPageIndex := Some(FindIndex(PagesOf(ct), PageId, pageId)))),
          selectedElementId := None)
      ensures var ct := old(session.currentTemplate);
        HasPages(ct) && FindIndex(PagesOf(ct), PageId, pageId) != -1 ==>
          CurrentPage() == Find(PagesOf(ct), PageId, pageId) && SelectedElement().None?
    {
      var ct := session.currentTemplate;
      if ct.None? || ct.value.pages.None? {
        return;
      }
      var pageIndex := FindIndex(ct.value.pages.value, PageId, pageId);
      if pageIndex == -1 {
        return;
      }
      session := session.(
        currentTemplate := Some(ct.value.(currentPageIndex := Some(pageIndex))),
        selectedElementId := None);
    }

    /** `currentPage`: `pages?.[currentPageIndex || 0]`, a page exactly when
        the template has pages and that index lies inside them. */
    function CurrentPage(): (p: Option<Page>)
      reads this
      ensures var ct := session.currentTemplate;
        var i := if ct.Some? then ct.value.currentPageIndex.GetOr(0) else 0;
        (p.Some? <==> HasPages(ct) && 0 <= i < |PagesOf(ct)|) &&
        (p.Some? ==> p.value == PagesOf(ct)[i])
    {
      var ct := session.currentTemplate;
      if ct.None? || ct.value.pages.None? then None
      else
        var i := ct.value.currentPageIndex.GetOr(0);
        if 0 <= i < |ct.value.pages.value| then Some(ct.value.pages.value[i]) else None
    }

    /** `toggleDrawingMode()` */
    method ToggleDrawingMode()
      requires Valid()
      modifies this
      ensures Valid() && OnlySession()
      ensures session == old(session).(isDrawingMode := !old(session.isDrawingMode), selectedElementId := None)
    {
      session := session.(isDrawingMode := !session.isDrawingMode, selectedElementId := None);
    }

    method SetDrawingTool(tool: DrawingTool)
      requires Valid()
      modifies this
      ensures Valid() && OnlySession() && session == old(session).(drawingTool := tool)
    {
      session := session.(drawingTool := tool);
    }

    method SetDrawingColor(color: string)
      requires Valid()
      modifies this
      ensures Valid() && OnlySession() && session == old(session).(drawingColor := color)
    {
      session := session.(drawingColor := color);
    }

    method SetDrawingWidth(width: real)
      requires Valid()
      modifies this
      ensures Valid() && OnlySession() && session == old(session).(drawingWidth := width)
    {
      session := session.(drawingWidth := width);
    }

    /** `setDrawingPaths(paths)`, the setter the hook hands out. */
    method SetDrawingPaths(paths: seq<DrawingPath>)
      requires Valid()
      modifies this`drawingPaths
      ensures Valid() && drawingPaths == paths
    {
      drawingPaths := paths;
    }

    /** `clearDrawings()` */
    method ClearDrawings()
      requires Valid()
      modifies this`drawingPaths
      ensures Valid() && drawingPaths == []
    {
      drawingPaths := [];
    }

    /** `updateDocumentProperties(properties)`: not undoable. */
    method UpdateDocumentProperties(properties: DocumentProperties, now: Timestamp)
      requires Valid()
      modifies this
      ensures Valid() && OnlySession()
      ensures var ct := old(session.currentTemplate);
        session == old(session).(currentTemplate :=
          if ct.Some? then Some(ct.value.(documentProperties := Some(properties), updatedAt := now)) else None)
    {
      var ct := session.currentTemplate;
      if ct.Some? {
        session := session.(currentTemplate := Some(ct.value.(documentProperties := Some(properties), updatedAt := now)));
      }
    }

    method SetActivePanel(panel: string)
      requires Valid()
      modifies this
      ensures Valid() && OnlySession() && session == old(session).(activePanel := panel)
    {
      session := session.(activePanel := panel);
    }

    /** `selectedElement`: the first element whose id is the selection. */
    function SelectedElement(): (e: Option<Element>)
      reads this
      ensures session.selectedElementId.None? ==> e.None?
      ensures session.selectedElementId.Some? ==>
        var es := ElementsOf(session.currentTemplate);
        var sel := session.selectedElementId.value;
        (e.Some? <==> exists i :: 0 <= i < |es| && es[i].id == sel) &&
        (e.Some? ==> exists i :: 0 <= i < |es| && es[i] == e.value && es[i].id == sel &&
                       forall j :: 0 <= j < i ==> es[j].id != sel)
    {
      match session.selectedElementId
      case None => None
      case Some(sel) => Find(ElementsOf(session.currentTemplate), ElementId, sel)
    }

    /** `copyStyle(id)`: not undoable. */
    method CopyStyle(id: string)
      requires Valid()
      modifies this
      ensures Valid() && OnlySession()
      ensures var found := Find(ElementsOf(old(session.currentTemplate)), ElementId, id);
        session == if found.None? then old(session) else old(session).(copiedStyle := Some(found.value.style))
    {
      var found := Find(ElementsOf(session.currentTemplate), ElementId, id);
      if found.Some? {
        session := session.(copiedStyle := Some(found.value.style));
      }
    }

    /** `pasteStyle(id)`: without a copied style nothing happens (the "no
        style" error); otherwise an undoable update of the element's style. */
    method PasteStyle(id: string, now: Timestamp) returns (pasted: bool)
      requires Valid()
      modifies this
      ensures Valid()
      ensures pasted == old(session.copiedStyle).Some?
      ensures !pasted ==> OnlySession() && session == old(session)
      ensures pasted ==> Pushed() && session == old(session).(currentTemplate :=
        WithElements(old(session.currentTemplate),
          PatchWhere(ElementsOf(old(session.currentTemplate)), id, EmptyPatch.(style := old(session.copiedStyle))), now))
    {
      pasted := session.copiedStyle.Some?;
      if !pasted {
        return;
      }
      UpdateElement(id, EmptyPatch.(style := session.copiedStyle), now);
    }

    /** `applyStylePreset(style)`: merges the preset over the selected
        element's style; nothing happens without a (non-empty) selection or
        when the selection names no element. */
    method ApplyStylePreset(style: Style, now: Timestamp)
      requires Valid()
      modifies this
      ensures Valid()
      ensures var sel := old(session.selectedElementId);
        var found := if Truthy(sel) then Find(ElementsOf(old(session.currentTemplate)), ElementId, sel.value) else None;
        if found.None? then OnlySession() && session == old(session)
        else Pushed() && session == old(session).(currentTemplate :=
          WithElements(old(session.currentTemplate),
            PatchWhere(ElementsOf(old(session.currentTemplate)), sel.value,
              EmptyPatch.(style := Some(found.value.style + style))), now))
    {
      var sel := session.selectedElementId;
      if !Truthy(sel) {
        return;
      }
      var found := Find(ElementsOf(session.currentTemplate), ElementId, sel.value);
      if found.None? {
        return;
      }
      UpdateElement(sel.value, EmptyPatch.(style := Some(found.value.style + style)), now);
    }

    /** `findAndReplace(findText, replaceText)`: not undoable; returns the
        `replacements` count, the number of elements it changed. */
    method FindAndReplace(findText: string, replaceText: string, now: Timestamp) returns (replacements: nat)
      requires Valid()
      modifies this
      ensures Valid() && OnlySession()
      ensures var ct := old(session.currentTemplate);
        if findText == "" || ct.None? then session == old(session) && replacements == 0
        else
          replacements == HitCount(ct.value.elements, findText) &&
          session == old(session).(currentTemplate := Some(ct.value.(
            elements := ReplaceInElements(ct.value.elements, findText, replaceText), updatedAt := now)))
    {
      replacements := 0;
      if findText == "" {
        return;
      }
      var ct := session.currentTemplate;
      if ct.None? {
        return;
      }
      var updated;
      updated, replacements := ReplaceEach(ct.value.elements, findText, replaceText);
      SetTemplate(Some(ct.value.(elements := updated, updatedAt := now)));
    }
  }
}
