/** Freehand drawing over a page: the eraser, and capturing one stroke from
    mouse-down to mouse-up. Points are already in page coordinates (the
    pointer position divided by the zoom scale). */
module DrawingCanvas {
  import opened Common
  import opened Document

  const HighlighterAlpha := "80"
  const HighlighterOpacity := 0.4

  /** `p` lies strictly inside the square of half-side `r` around `q`. */
  predicate Near(p: Position, q: Position, r: real) {
    AbsReal(p.x - q.x) < r && AbsReal(p.y - q.y) < r
  }

  /** `path.points.some(...)`: the eraser at `q` with radius `r` hits the path. */
  predicate Touches(path: DrawingPath, q: Position, r: real) {
    exists k :: 0 <= k < |path.points| && Near(path.points[k], q, r)
  }

  /** `paths.filter(path => !touched)` */
  function Erase(paths: seq<DrawingPath>, q: Position, r: real): (rest: seq<DrawingPath>)
    ensures |rest| <= |paths|
    ensures forall p :: p in rest ==> p in paths && !Touches(p, q, r)
    ensures forall p :: p in paths && !Touches(p, q, r) ==> p in rest
    decreases |paths|
  {
    if paths == [] then []
    else
      var tail := Erase(paths[1..], q, r);
      if Touches(paths[0], q, r) then tail else [paths[0]] + tail
  }

  /** Erasing distributes over concatenation, so the surviving paths keep
      their original order. */
  lemma {:induction false} EraseAppend(a: seq<DrawingPath>, b: seq<DrawingPath>, q: Position, r: real)
    ensures Erase(a + b, q, r) == Erase(a, q, r) + Erase(b, q, r)
    decreases |a|
  {
    if a == [] {
      assert a + b == b;
    } else {
      assert (a + b)[0] == a[0];
      assert (a + b)[1..] == a[1..] + b;
      EraseAppend(a[1..], b, q, r);
    }
  }

  /** The list changes length exactly when some path is touched. */
  lemma {:induction false} EraseChanges(paths: seq<DrawingPath>, q: Position, r: real)
    ensures |Erase(paths, q, r)| < |paths| <==> exists i :: 0 <= i < |paths| && Touches(paths[i], q, r)
    ensures |Erase(paths, q, r)| == |paths| ==> Erase(paths, q, r) == paths
    decreases |paths|
  {
    if paths != [] {
      EraseChanges(paths[1..], q, r);
      if exists i :: 0 <= i < |paths[1..]| && Touches(paths[1..][i], q, r) {
        var i :| 0 <= i < |paths[1..]| && Touches(paths[1..][i], q, r);
        assert paths[i + 1] == paths[1..][i];
      }
      if exists i :: 0 <= i < |paths| && Touches(paths[i], q, r) {
        var i :| 0 <= i < |paths| && Touches(paths[i], q, r);
        if i > 0 {
          assert paths[1..][i - 1] == paths[i];
        }
      }
      if |Erase(paths, q, r)| == |paths| {
        assert paths == [paths[0]] + paths[1..];
      }
    }
  }

  /** A stroke as it starts: one point, highlighter strokes translucent. */
  function StartPath(id: string, tool: DrawingTool, color: string, strokeWidth: real, point: Position): (p: DrawingPath)
    ensures p.id == id && p.tool == tool && p.points == [point] && p.width == strokeWidth
    ensures tool == Highlighter ==> p.color == color + HighlighterAlpha && p.opacity == HighlighterOpacity
    ensures tool != Highlighter ==> p.color == color && p.opacity == 1.0
  {
    DrawingPath(id, tool, [point],
      if tool == Highlighter then color + HighlighterAlpha else color,
      strokeWidth,
      if tool == Highlighter then HighlighterOpacity else 1.0)
  }

  /** `getCursorStyle()` */
  function CursorStyle(isActive: bool, tool: DrawingTool): (c: string)
    ensures !isActive ==> c == "default"
    ensures isActive ==> (c == "cell" <==> tool == Eraser)
    ensures isActive && tool != Eraser ==> c == "crosshair"
  {
    if !isActive then "default"
    else match tool
      case Pen => "crosshair"
      case Highlighter => "crosshair"
      case Eraser => "cell"
      case _ => "crosshair"
  }

  /** The stroke being captured. The path list itself is a prop: handlers
      return the list passed to `onPathsChange`, `None` when it is not
      called. */
  class StrokeCapture {
    var isDrawing: bool
    var currentPath: Option<DrawingPath>

    constructor()
      ensures !isDrawing && currentPath == None
    {
      isDrawing, currentPath := false, None;
    }

    /** `handleMouseDown` at page point `point`; `freshId` is the uuid the
        new stroke would get. */
    method MouseDown(isActive: bool, tool: DrawingTool, color: string, strokeWidth: real,
                     point: Position, paths: seq<DrawingPath>, freshId: string)
      returns (change: Option<seq<DrawingPath>>)
      modifies this
      ensures (!isActive || tool == Eraser) ==> isDrawing == old(isDrawing) && currentPath == old(currentPath)
      ensures !isActive ==> change == None
      ensures isActive && tool == Eraser ==>
        var rest := Erase(paths, point, strokeWidth * 2.0);
        change == (if |rest| != |paths| then Some(rest) else None)
      ensures isActive && tool != Eraser ==>
        change == None && isDrawing && currentPath == Some(StartPath(freshId, tool, color, strokeWidth, point))
    {
      if !isActive {
        return None;
      }
      if tool == Eraser {
        var eraserRadius := strokeWidth * 2.0;
        var remaining := Erase(paths, point, eraserRadius);
        change := if |remaining| != |paths| then Some(remaining) else None;
        return;
      }
      change := None;
      isDrawing := true;
      currentPath := Some(StartPath(freshId, tool, color, strokeWidth, point));
    }

    /** `handleMouseMove`: one more point on the stroke being drawn. */
    method MouseMove(isActive: bool, point: Position)
      modifies this
      ensures isDrawing == old(isDrawing)
      ensures old(isDrawing) && old(currentPath).Some? && isActive ==>
        currentPath == Some(old(currentPath).value.(points := old(currentPath).value.points + [point]))
      ensures !(old(isDrawing) && old(currentPath).Some? && isActive) ==> currentPath == old(currentPath)
    {
      if !isDrawing || currentPath.None? || !isActive {
        return;
      }
      var prev := currentPath.value;
      currentPath := Some(prev.(points := prev.points + [point]));
    }

    /** `handleMouseUp`: a stroke of two points or more is appended. */
    method MouseUp(paths: seq<DrawingPath>) returns (change: Option<seq<DrawingPath>>)
      modifies this
      ensures !(old(isDrawing) && old(currentPath).Some?) ==>
        change == None && isDrawing == old(isDrawing) && currentPath == old(currentPath)
      ensures old(isDrawing) && old(currentPath).Some? ==>
        !isDrawing && currentPath == None &&
        change == (if |old(currentPath).value.points| >= 2 then Some(paths + [old(currentPath).value]) else None)
    {
      if !isDrawing || currentPath.None? {
        return None;
      }
      change := if |currentPath.value.points| >= 2 then Some(paths + [currentPath.value]) else None;
      isDrawing := false;
      currentPath := None;
    }

    /** `handleMouseLeave`: commits like mouse-up, and always resets. */
    method MouseLeave(paths: seq<DrawingPath>) returns (change: Option<seq<DrawingPath>>)
      modifies this
      ensures !isDrawing && currentPath == None
      ensures change == (if old(isDrawing) && old(currentPath).Some? && |old(currentPath).value.points| >= 2
                         then Some(paths + [old(currentPath).value]) else None)
    {
      change := None;
      if isDrawing && currentPath.Some? && |currentPath.value.points| >= 2 {
        change := Some(paths + [currentPath.value]);
      }
      isDrawing := false;
      currentPath := None;
    }
  }

  /** A press, one move and a release draw a two-point stroke, appended after
      the existing paths; a press and a release alone draw nothing. */
  method OneStroke(paths: seq<DrawingPath>, tool: DrawingTool, a: Position, b: Position, id: string)
    returns (withMove: Option<seq<DrawingPath>>, withoutMove: Option<seq<DrawingPath>>)
    requires tool != Eraser
    ensures withMove.Some? && |withMove.value| == |paths| + 1 && withMove.value[..|paths|] == paths
    ensures withMove.value[|paths|].points == [a, b] && withMove.value[|paths|].id == id
    ensures withoutMove == None
  {
    var s := new StrokeCapture();
    var ignored := s.MouseDown(true, tool, "#000000", 2.0, a, paths, id);
    s.MouseMove(true, b);
    withMove := s.MouseUp(paths);
    ignored := s.MouseDown(true, tool, "#000000", 2.0, a, paths, id);
    withoutMove := s.MouseUp(paths);
  }
}
