/** One element on the editing canvas: selecting and dragging it, resizing it
    by one of its eight handles, and entering inline text editing. */
module CanvasElement {
  import opened Common
  import opened Document

  const MinWidth := 50.0
  const MinHeight := 20.0

  /** Where a drag started: the pointer and the element's position. */
  datatype DragStart = DragStart(x: real, y: real, elementX: real, elementY: real)

  /** Where a resize started: the pointer, the size and the position. */
  datatype ResizeStart = ResizeStart(x: real, y: real, width: real, height: real, elementX: real, elementY: real)

  predicate IsLocked(e: Element) { e.locked == Some(true) }

  /** The element is drawn at all: not hidden, and with a position and a
      size. Its handlers exist only then. */
  predicate Renders(e: Element) {
    e.visible != Some(false) && e.position.Some? && e.size.Some?
  }

  /** The element types that can be edited in place. */
  predicate Editable(e: Element) {
    e.elementType in {"text", "header", "footer", "dynamic-field"}
  }

  /** What one resize step may produce from `st`, the handle `h` and the
      pointer delta `(dx, dy)` in page units: the edges named by the handle
      follow the pointer down to the minimum size, the opposite edges stay
      put, and a dimension no handle letter names is kept. */
  predicate ResizeRule(st: ResizeStart, h: string, dx: real, dy: real, p: Position, s: Size) {
    (('e' in h || 'w' in h) ==> s.width >= MinWidth) &&
    ('w' in h ==> s.width == MaxReal(MinWidth, st.width - dx) && p.x + s.width == st.elementX + st.width) &&
    ('w' !in h && 'e' in h ==> s.width == MaxReal(MinWidth, st.width + dx) && p.x == st.elementX) &&
    ('w' !in h && 'e' !in h ==> s.width == st.width && p.x == st.elementX) &&
    (('n' in h || 's' in h) ==> s.height >= MinHeight) &&
    ('n' in h ==> s.height == MaxReal(MinHeight, st.height - dy) && p.y + s.height == st.elementY + st.height) &&
    ('n' !in h && 's' in h ==> s.height == MaxReal(MinHeight, st.height + dy) && p.y == st.elementY) &&
    ('n' !in h && 's' !in h ==> s.height == st.height && p.y == st.elementY)
  }

  /** The rule leaves exactly one outcome. */
  lemma ResizeRuleUnique(st: ResizeStart, h: string, dx: real, dy: real, p: Position, s: Size, p': Position, s': Size)
    requires ResizeRule(st, h, dx, dy, p, s) && ResizeRule(st, h, dx, dy, p', s')
    ensures p == p' && s == s'
  {
  }

  /** Dragging a west or north handle past the minimum size pins the element
      at the minimum, its far edge where it was. */
  lemma ResizeStopsAtMinimum(st: ResizeStart, h: string, dx: real, dy: real, p: Position, s: Size)
    requires ResizeRule(st, h, dx, dy, p, s)
    requires 'w' in h && st.width - dx < MinWidth
    ensures s.width == MinWidth && p.x == st.elementX + st.width - MinWidth
  {
  }

  class ElementInteraction {
    var isDragging: bool
    var isResizing: bool
    var resizeHandle: Option<string>
    var isEditing: bool
    var dragStart: DragStart
    var resizeStart: ResizeStart

    constructor()
      ensures !isDragging && !isResizing && resizeHandle == None && !isEditing
      ensures dragStart == DragStart(0.0, 0.0, 0.0, 0.0)
      ensures resizeStart == ResizeStart(0.0, 0.0, 0.0, 0.0, 0.0, 0.0)
    {
      isDragging, isResizing, resizeHandle, isEditing := false, false, None, false;
      dragStart := DragStart(0.0, 0.0, 0.0, 0.0);
      resizeStart := ResizeStart(0.0, 0.0, 0.0, 0.0, 0.0, 0.0);
    }

    /** `handleMouseDown`: a locked element, or one being edited, ignores
        the press; otherwise it is selected and a drag starts. */
    method MouseDown(e: Element, clientX: real, clientY: real) returns (selected: bool)
      requires Renders(e)
      modifies this
      ensures selected <==> !IsLocked(e) && !old(isEditing)
      ensures selected ==> isDragging && dragStart == DragStart(clientX, clientY, e.position.value.x, e.position.value.y)
      ensures !selected ==> isDragging == old(isDragging) && dragStart == old(dragStart)
      ensures isResizing == old(isResizing) && resizeHandle == old(resizeHandle)
      ensures isEditing == old(isEditing) && resizeStart == old(resizeStart)
    {
      if IsLocked(e) || isEditing {
        return false;
      }
      selected := true;
      isDragging := true;
      dragStart := DragStart(clientX, clientY, e.position.value.x, e.position.value.y);
    }

    /** `handleResizeMouseDown(e, handle)`: refused on a locked element. */
    method ResizeMouseDown(e: Element, handle: string, clientX: real, clientY: real) returns (started: bool)
      requires Renders(e)
      modifies this
      ensures started <==> !IsLocked(e)
      ensures started ==>
        isResizing && resizeHandle == Some(handle) &&
        resizeStart == ResizeStart(clientX, clientY, e.size.value.width, e.size.value.height, e.position.value.x, e.position.value.y)
      ensures !started ==> isResizing == old(isResizing) && resizeHandle == old(resizeHandle) && resizeStart == old(resizeStart)
      ensures isDragging == old(isDragging) && dragStart == old(dragStart) && isEditing == old(isEditing)
    {
      if IsLocked(e) {
        return false;
      }
      started := true;
      isResizing := true;
      resizeHandle := Some(handle);
      resizeStart := ResizeStart(clientX, clientY, e.size.value.width, e.size.value.height, e.position.value.x, e.position.value.y);
    }

    /** `handleMouseMove`: the updates handed to `onUpdate`, a new position
        while dragging and a new box while resizing. `scale` is `zoom / 100`. */
    method MouseMove(clientX: real, clientY: real, scale: real) returns (moved: Option<Position>, resized: Option<(Position, Size)>)
      requires scale > 0.0
      ensures moved.Some? <==> isDragging
      ensures moved.Some? ==> moved.value.x * scale == dragStart.elementX * scale + (clientX - dragStart.x)
      ensures moved.Some? ==> moved.value.y * scale == dragStart.elementY * scale + (clientY - dragStart.y)
      ensures resized.Some? <==> isResizing && Truthy(resizeHandle)
      ensures resized.Some? ==>
        ResizeRule(resizeStart, resizeHandle.value, (clientX - resizeStart.x) / scale, (clientY - resizeStart.y) / scale,
          resized.value.0, resized.value.1)
    {
      moved, resized := None, None;
      if isDragging {
        var dx := (clientX - dragStart.x) / scale;
        var dy := (clientY - dragStart.y) / scale;
        moved := Some(Position(dragStart.elementX + dx, dragStart.elementY + dy));
      }
      if isResizing && Truthy(resizeHandle) {
        var handle := resizeHandle.value;
        var dx := (clientX - resizeStart.x) / scale;
        var dy := (clientY - resizeStart.y) / scale;
        var newWidth := resizeStart.width;
        var newHeight := resizeStart.height;
        var newX := resizeStart.elementX;
        var newY := resizeStart.elementY;
        if 'e' in handle {
          newWidth := MaxReal(MinWidth, resizeStart.width + dx);
        }
        if 'w' in handle {
          newWidth := MaxReal(MinWidth, resizeStart.width - dx);
          newX := resizeStart.elementX + (resizeStart.width - newWidth);
        }
        if 's' in handle {
          newHeight := MaxReal(MinHeight, resizeStart.height + dy);
        }
        if 'n' in handle {
          newHeight := MaxReal(MinHeight, resizeStart.height - dy);
          newY := resizeStart.elementY + (resizeStart.height - newHeight);
        }
        resized := Some((Position(newX, newY), Size(newWidth, newHeight)));
      }
    }

    /** `handleMouseUp`: ends any drag or resize. */
    method MouseUp()
      modifies this
      ensures !isDragging && !isResizing && resizeHandle == None
      ensures isEditing == old(isEditing) && dragStart == old(dragStart) && resizeStart == old(resizeStart)
    {
      isDragging, isResizing, resizeHandle := false, false, None;
    }

    /** `handleDoubleClick`: only text-like elements enter editing. */
    method DoubleClick(e: Element)
      modifies this
      ensures isEditing == (old(isEditing) || Editable(e))
      ensures isDragging == old(isDragging) && isResizing == old(isResizing) && resizeHandle == old(resizeHandle)
      ensures dragStart == old(dragStart) && resizeStart == old(resizeStart)
    {
      if Editable(e) {
        isEditing := true;
      }
    }

    /** `handleBlur` */
    method Blur()
      modifies this
      ensures !isEditing
      ensures isDragging == old(isDragging) && isResizing == old(isResizing) && resizeHandle == old(resizeHandle)
      ensures dragStart == old(dragStart) && resizeStart == old(resizeStart)
    {
      isEditing := false;
    }
  }

  /** A press on a locked element leaves the interaction idle: neither a drag
      nor a resize can start, so no move produces an update. */
  method LockedStaysPut(e: Element, x: real, y: real, handle: string) returns (moved: Option<Position>, resized: Option<(Position, Size)>)
    requires Renders(e) && IsLocked(e)
    ensures moved.None? && resized.None?
  {
    var ui := new ElementInteraction();
    var selected := ui.MouseDown(e, x, y);
    var started := ui.ResizeMouseDown(e, handle, x, y);
    moved, resized := ui.MouseMove(x + 10.0, y + 10.0, 1.0);
  }
}
