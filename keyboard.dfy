/** Roving keyboard focus over a list of focusable items. */
module KeyboardNavigation {
  import opened Common

  /** JavaScript's `%`: the remainder takes the sign of the dividend. */
  function JsRem(a: int, n: int): (r: int)
    requires n > 0
    ensures -n < r < n
    ensures a >= 0 ==> r == a % n
    ensures a < 0 ==> r <= 0
  {
    if a >= 0 then a % n else -((-a) % n)
  }

  /** `focusItem(index, items)`: the index that receives focus, `None` when
      there are no items. */
  function FocusTarget(index: int, n: nat, wrap: bool): (r: Option<nat>)
    ensures n == 0 <==> r.None?
    ensures r.Some? ==> r.value < n
    ensures r.Some? && wrap ==> r.value == index % n
    ensures r.Some? && !wrap ==> r.value == (if index < 0 then 0 else if index < n then index else n - 1)
  {
    if n == 0 then None
    else if wrap then
      var t := JsRem(JsRem(index, n) + n, n);
      WrapIsModulo(index, n);
      Some(t)
    else Some(MaxInt(0, MinInt(index, n - 1)))
  }

  /** The remainder by `n` (Dafny's `%`, which is never negative) is the `r`
      of any decomposition `x == q * n + r` with `0 <= r < n`. */
  lemma ModUnique(x: int, q: int, r: int, n: int)
    requires n > 0 && 0 <= r < n && x == q * n + r
    ensures x % n == r
  {
    var q0, r0 := x / n, x % n;
    assert x == q0 * n + r0;
    var d := q - q0;
    assert d * n == q * n - q0 * n;
    assert d * n == r0 - r;
    if d > 0 {
      assert d * n >= n by { MulAtLeast(d, n); }
    } else if d < 0 {
      assert (-d) * n == -(d * n);
      MulAtLeast(-d, n);
    }
  }

  lemma MulAtLeast(d: int, n: int)
    requires d >= 1 && n > 0
    ensures d * n >= n
  {
    assert d * n == (d - 1) * n + n;
    assert (d - 1) * n >= 0;
  }

  /** `((index % n) + n) % n` with truncating `%` is the non-negative
      remainder of `index` by `n`. */
  lemma WrapIsModulo(index: int, n: nat)
    requires n > 0
    ensures JsRem(JsRem(index, n) + n, n) == index % n
  {
    if index >= 0 {
      var a := index % n;
      ModUnique(a + n, 1, a, n);
    } else {
      var m := (-index) % n;
      var q := (-index) / n;
      assert -index == q * n + m;
      if m == 0 {
        ModUnique(n, 1, 0, n);
        assert index == (-q) * n + 0;
        ModUnique(index, -q, 0, n);
      } else {
        ModUnique(n - m, 0, n - m, n);
        assert (-q - 1) * n == -(q * n) - n;
        ModUnique(index, -q - 1, n - m, n);
      }
    }
  }

  /** An index already in range is focused as it is, wrapping or not. */
  lemma FocusInRange(index: int, n: nat, wrap: bool)
    requires 0 <= index < n
    ensures FocusTarget(index, n, wrap) == Some(index)
  {
    ModUnique(index, 0, index, n);
  }

  /** Wrapping one past either end lands on the other end. */
  lemma WrapEnds(n: nat)
    requires n > 0
    ensures FocusTarget(n, n, true) == Some(0)
    ensures FocusTarget(-1, n, true) == Some(n - 1)
  {
    ModUnique(n, 1, 0, n);
    ModUnique(-1, -1, n - 1, n);
  }

  datatype Orientation = Horizontal | Vertical | Both

  datatype Key = ArrowUp | ArrowDown | ArrowLeft | ArrowRight | Home | End | Enter | Space | OtherKey(name: string)

  /** What one keydown does: whether the default is prevented, which item
      index is focused, and whether `onActivate` is called. */
  datatype KeyOutcome = KeyOutcome(preventDefault: bool, focus: Option<nat>, activate: bool)

  const Nothing := KeyOutcome(false, None, false)

  predicate MovesVertically(o: Orientation) { o == Vertical || o == Both }
  predicate MovesHorizontally(o: Orientation) { o == Horizontal || o == Both }

  /** The index a navigation key asks for from `current`, or `None` for a
      key that is not handled under this orientation. */
  function Requested(key: Key, current: int, n: nat, o: Orientation): (r: Option<int>)
    ensures r.Some? <==>
      key in {Home, End} || (key in {ArrowUp, ArrowDown} && MovesVertically(o)) ||
      (key in {ArrowLeft, ArrowRight} && MovesHorizontally(o))
  {
    match key
    case ArrowUp => if MovesVertically(o) then Some(current - 1) else None
    case ArrowDown => if MovesVertically(o) then Some(current + 1) else None
    case ArrowLeft => if MovesHorizontally(o) then Some(current - 1) else None
    case ArrowRight => if MovesHorizontally(o) then Some(current + 1) else None
    case Home => Some(0)
    case End => Some(n - 1)
    case _ => None
  }

  /** The outcome of a keydown with `n` focusable items, `current` being the
      result of `findIndex` for the active element. */
  function KeyDown(key: Key, n: nat, current: int, wrap: bool, o: Orientation, hasOnActivate: bool): KeyOutcome
  {
    if n == 0 || current == -1 then Nothing
    else if key == Enter || key == Space then KeyOutcome(hasOnActivate, None, hasOnActivate)
    else match Requested(key, current, n, o)
      case None => Nothing
      case Some(i) => KeyOutcome(true, FocusTarget(i, n, wrap), false)
  }

  /** `handleKeyDown(event)` */
  method HandleKeyDown(key: Key, n: nat, current: int, wrap: bool, o: Orientation, hasOnActivate: bool)
    returns (preventDefault: bool, focus: Option<nat>, activate: bool)
    requires -1 <= current < n
    ensures KeyOutcome(preventDefault, focus, activate) == KeyDown(key, n, current, wrap, o, hasOnActivate)
  {
    preventDefault, focus, activate := false, None, false;
    if n == 0 {
      return;
    }
    if current == -1 {
      return;
    }
    var handled := false;
    var newIndex := current;
    match key {
      case ArrowUp =>
        if o == Vertical || o == Both {
          newIndex := current - 1;
          handled := true;
        }
      case ArrowDown =>
        if o == Vertical || o == Both {
          newIndex := current + 1;
          handled := true;
        }
      case ArrowLeft =>
        if o == Horizontal || o == Both {
          newIndex := current - 1;
          handled := true;
        }
      case ArrowRight =>
        if o == Horizontal || o == Both {
          newIndex := current + 1;
          handled := true;
        }
      case Home =>
        newIndex := 0;
        handled := true;
      case End =>
        newIndex := n - 1;
        handled := true;
      case Enter =>
        if hasOnActivate {
          preventDefault := true;
          activate := true;
        }
        return;
      case Space =>
        if hasOnActivate {
          preventDefault := true;
          activate := true;
        }
        return;
      case OtherKey(_) =>
    }
    if handled {
      preventDefault := true;
      focus := FocusTarget(newIndex, n, wrap);
    }
  }

  /** Nothing happens without items or when the focused element is not one
      of them. */
  lemma NoItemsNoEffect(key: Key, n: nat, current: int, wrap: bool, o: Orientation, act: bool)
    requires n == 0 || current == -1
    ensures KeyDown(key, n, current, wrap, o, act) == Nothing
  {
  }

  /** Home and End focus the first and the last item in every orientation. */
  lemma HomeEnd(n: nat, current: int, wrap: bool, o: Orientation, act: bool)
    requires 0 <= current < n
    ensures KeyDown(Home, n, current, wrap, o, act) == KeyOutcome(true, Some(0), false)
    ensures KeyDown(End, n, current, wrap, o, act) == KeyOutcome(true, Some(n - 1), false)
  {
    FocusInRange(0, n, wrap);
    FocusInRange(n - 1, n, wrap);
  }

  predicate Along(key: Key, o: Orientation) {
    (key in {ArrowUp, ArrowDown} && MovesVertically(o)) || (key in {ArrowLeft, ArrowRight} && MovesHorizontally(o))
  }

  /** An arrow key across the orientation is ignored. */
  lemma ArrowAcross(key: Key, n: nat, current: int, wrap: bool, o: Orientation, act: bool)
    requires key in {ArrowUp, ArrowDown, ArrowLeft, ArrowRight} && !Along(key, o)
    ensures KeyDown(key, n, current, wrap, o, act) == Nothing
  {
  }

  /** ArrowDown and ArrowRight along the orientation focus the next item;
      past the last one they wrap to the first or stay on the last. */
  lemma ArrowNext(key: Key, n: nat, current: int, wrap: bool, o: Orientation, act: bool)
    requires 0 <= current < n
    requires key in {ArrowDown, ArrowRight} && Along(key, o)
    ensures KeyDown(key, n, current, wrap, o, act) ==
      KeyOutcome(true, Some(if current + 1 < n then current + 1 else if wrap then 0 else n - 1), false)
  {
    if current + 1 < n {
      FocusInRange(current + 1, n, wrap);
    } else if wrap {
      WrapEnds(n);
    }
  }

  /** ArrowUp and ArrowLeft along the orientation focus the previous item;
      before the first one they wrap to the last or stay on the first. */
  lemma ArrowPrevious(key: Key, n: nat, current: int, wrap: bool, o: Orientation, act: bool)
    requires 0 <= current < n
    requires key in {ArrowUp, ArrowLeft} && Along(key, o)
    ensures KeyDown(key, n, current, wrap, o, act) ==
      KeyOutcome(true, Some(if current > 0 then current - 1 else if wrap then n - 1 else 0), false)
  {
    if current > 0 {
      FocusInRange(current - 1, n, wrap);
    } else if wrap {
      WrapEnds(n);
    }
  }

  /** Enter and Space never move focus; they prevent the default exactly
      when there is an activation callback. */
  lemma Activation(key: Key, n: nat, current: int, wrap: bool, o: Orientation, act: bool)
    requires 0 <= current < n
    requires key == Enter || key == Space
    ensures KeyDown(key, n, current, wrap, o, act) == KeyOutcome(act, None, act)
  {
  }

  /** Only a handled key prevents the default, and a focus always lands on one
      of the items. */
  lemma PreventOnlyWhenHandled(key: Key, n: nat, current: int, wrap: bool, o: Orientation, act: bool)
    ensures var out := KeyDown(key, n, current, wrap, o, act);
      (out.preventDefault <==>
        n > 0 && current != -1 && ((key in {Enter, Space} && act) || Requested(key, current, n, o).Some?)) &&
      (out.focus.Some? ==> out.focus.value < n)
  {
  }
}
