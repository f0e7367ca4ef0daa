/** The gradient editor's handlers. Each computes the value it hands to
    `onChange`. A `None` result means that no gradient is passed on: either
    `onChange(undefined)` is called or no call is made, as each member says. */
module GradientPicker {
  import opened Common
  import opened Document
  import opened ListOps

  const DefaultColor := "#ffffff"
  const NewStop := GradientStop(50.0, "#808080")
  const MinStops := 2

  /** `handleModeChange(enabled)`: the gradient passed to `onChange`;
      `defaultColor` is the prop, `undefined` when not given.
      `None` is the call `onChange(undefined)` made when switching off. */
  function ModeChange(enabled: bool, defaultColor: Option<string>): (g: Option<Gradient>)
    ensures enabled <==> g.Some?
    ensures enabled ==>
      g.value.kind == "linear" && g.value.angle == Some(90.0) &&
      g.value.stops == [GradientStop(0.0, defaultColor.GetOr(DefaultColor)), GradientStop(100.0, "#000000")]
  {
    if enabled then
      Some(Gradient("linear", Some(90.0), [GradientStop(0.0, defaultColor.GetOr(DefaultColor)), GradientStop(100.0, "#000000")]))
    else None
  }

  /** `Partial<Gradient>`: the keys present in the update. */
  datatype GradientPatch = GradientPatch(kind: Option<string>, angle: Option<Option<real>>, stops: Option<seq<GradientStop>>)

  /** `Partial<GradientStop>` */
  datatype StopPatch = StopPatch(offset: Option<real>, color: Option<string>)

  function PatchStop(s: GradientStop, p: StopPatch): GradientStop {
    GradientStop(p.offset.GetOr(s.offset), p.color.GetOr(s.color))
  }

  /** `updateGradient(updates)`: `{ ...gradient, ...updates }`; `None` when
      there is no gradient, and then no call is made. */
  function UpdateGradient(g: Option<Gradient>, p: GradientPatch): (r: Option<Gradient>)
    ensures g.None? <==> r.None?
    ensures r.Some? ==>
      r.value.kind == p.kind.GetOr(g.value.kind) && r.value.angle == p.angle.GetOr(g.value.angle) &&
      r.value.stops == p.stops.GetOr(g.value.stops)
  {
    if g.None? then None
    else Some(Gradient(p.kind.GetOr(g.value.kind), p.angle.GetOr(g.value.angle), p.stops.GetOr(g.value.stops)))
  }

  /** `updateStop(index, updates)`: the stop at `index` is merged with the
      update; the handler is only bound to existing stops. */
  function UpdateStop(g: Option<Gradient>, index: nat, p: StopPatch): (r: Option<Gradient>)
    requires g.Some? ==> index < |g.value.stops|
    ensures g.None? <==> r.None?
    ensures r.Some? ==>
      r.value.kind == g.value.kind && r.value.angle == g.value.angle &&
      |r.value.stops| == |g.value.stops| && r.value.stops[index] == PatchStop(g.value.stops[index], p) &&
      forall i :: 0 <= i < |g.value.stops| && i != index ==> r.value.stops[i] == g.value.stops[i]
  {
    if g.None? then None
    else
      var stops := g.value.stops;
      Some(g.value.(stops := stops[index := PatchStop(stops[index], p)]))
  }

  // ---------------------------------------------------------------------
  // addStop: append, then `sort((a, b) => a.offset - b.offset)`
  // ---------------------------------------------------------------------

  predicate SortedByOffset(s: seq<GradientStop>) {
    forall i, j :: 0 <= i < j < |s| ==> s[i].offset <= s[j].offset
  }

  /** Put `x` after every stop whose offset is not greater, which is where a
      stable sort leaves an element that came last. */
  function InsertByOffset(s: seq<GradientStop>, x: GradientStop): (r: seq<GradientStop>)
    ensures |r| == |s| + 1
    ensures multiset(r) == multiset(s) + multiset{x}
    decreases |s|
  {
    if s == [] then [x]
    else if s[|s| - 1].offset <= x.offset then s + [x]
    else
      var init := s[..|s| - 1];
      assert s == init + [s[|s| - 1]];
      InsertByOffset(init, x) + [s[|s| - 1]]
  }

  /** Inserting into a sorted list keeps it sorted. */
  lemma {:induction false} InsertSorted(s: seq<GradientStop>, x: GradientStop)
    requires SortedByOffset(s)
    ensures SortedByOffset(InsertByOffset(s, x))
    decreases |s|
  {
    if s != [] && x.offset < s[|s| - 1].offset {
      var init := s[..|s| - 1];
      var last := s[|s| - 1];
      assert s == init + [last];
      assert SortedByOffset(init);
      InsertSorted(init, x);
      var r := InsertByOffset(init, x);
      assert InsertByOffset(s, x) == r + [last];
      forall k | 0 <= k < |r| ensures r[k].offset <= last.offset {
        assert r[k] in multiset(init) + multiset{x};
        if r[k] in multiset(init) {
          var j :| 0 <= j < |init| && init[j] == r[k];
          assert s[j] == init[j];
        }
      }
    }
  }

  /** `r` is `s` with `x` at index `k`, right after the last stop whose
      offset is not greater and before the greater ones. */
  predicate PlacedAt(s: seq<GradientStop>, x: GradientStop, r: seq<GradientStop>, k: int) {
    0 <= k <= |s| && r == s[..k] + [x] + s[k..] &&
    (forall i :: k <= i < |s| ==> s[i].offset > x.offset) &&
    (k > 0 ==> s[k - 1].offset <= x.offset)
  }

  /** A greater stop added behind both lists keeps the placement. */
  lemma PlacedBeforeGreater(s: seq<GradientStop>, x: GradientStop, r: seq<GradientStop>, k: int, last: GradientStop)
    requires PlacedAt(s, x, r, k) && last.offset > x.offset
    ensures PlacedAt(s + [last], x, r + [last], k)
  {
    var t := s + [last];
    assert t[..k] == s[..k];
    assert t[k..] == s[k..] + [last];
    assert forall i :: k <= i < |s| ==> t[i] == s[i];
  }

  /** Where the insertion puts `x`: a stable sort leaves the last element
      exactly there. */
  lemma {:induction false} InsertPlacement(s: seq<GradientStop>, x: GradientStop)
    ensures exists k :: PlacedAt(s, x, InsertByOffset(s, x), k)
    decreases |s|
  {
    if s == [] {
      assert PlacedAt(s, x, InsertByOffset(s, x), 0);
    } else if s[|s| - 1].offset <= x.offset {
      assert s[..|s|] == s && s[|s|..] == [];
      assert PlacedAt(s, x, InsertByOffset(s, x), |s|);
    } else {
      var init := s[..|s| - 1];
      var last := s[|s| - 1];
      assert s == init + [last];
      InsertPlacement(init, x);
      var k :| PlacedAt(init, x, InsertByOffset(init, x), k);
      PlacedBeforeGreater(init, x, InsertByOffset(init, x), k, last);
      assert InsertByOffset(s, x) == InsertByOffset(init, x) + [last];
    }
  }

  /** `Array.prototype.sort` with the offset comparator, built as an
      insertion sort: each stop is placed as InsertPlacement says. */
  function SortByOffset(s: seq<GradientStop>): (r: seq<GradientStop>)
    ensures |r| == |s| && multiset(r) == multiset(s) && SortedByOffset(r)
    decreases |s|
  {
    if s == [] then []
    else
      var init := s[..|s| - 1];
      assert s == init + [s[|s| - 1]];
      InsertSorted(SortByOffset(init), s[|s| - 1]);
      InsertByOffset(SortByOffset(init), s[|s| - 1])
  }

  /** `addStop()` */
  function AddStop(g: Option<Gradient>): (r: Option<Gradient>)
    ensures g.None? <==> r.None?
    ensures r.Some? ==>
      r.value.kind == g.value.kind && r.value.angle == g.value.angle &&
      |r.value.stops| == |g.value.stops| + 1 && SortedByOffset(r.value.stops) &&
      multiset(r.value.stops) == multiset(g.value.stops) + multiset{NewStop}
  {
    if g.None? then None
    else Some(g.value.(stops := SortByOffset(g.value.stops + [NewStop])))
  }

  /** Dropping the last stop keeps the rest in order, and the last stop is
      not below any of them. */
  lemma SortedInit(s: seq<GradientStop>)
    requires SortedByOffset(s) && s != []
    ensures SortedByOffset(s[..|s| - 1])
    ensures |s| > 1 ==> s[|s| - 2].offset <= s[|s| - 1].offset
  {
    var init := s[..|s| - 1];
    forall i, j | 0 <= i < j < |init| ensures init[i].offset <= init[j].offset {
      assert init[i] == s[i] && init[j] == s[j];
    }
  }

  /** Stops already in order come back in the same order. */
  lemma {:induction false} SortSorted(s: seq<GradientStop>)
    requires SortedByOffset(s)
    ensures SortByOffset(s) == s
    decreases |s|
  {
    if s != [] {
      var init := s[..|s| - 1];
      var last := s[|s| - 1];
      SortedInit(s);
      SortSorted(init);
      assert SortByOffset(s) == InsertByOffset(init, last);
      if init != [] {
        assert init[|init| - 1] == s[|s| - 2];
      }
      assert s == init + [last];
    }
  }

  /** Adding to stops already in order puts the new stop after every stop at
      offset 50 or less and before the greater ones, the others keeping their
      order. */
  lemma AddStopPlacement(g: Option<Gradient>)
    requires g.Some? && SortedByOffset(g.value.stops)
    ensures exists k :: PlacedAt(g.value.stops, NewStop, AddStop(g).value.stops, k)
  {
    var s := g.value.stops;
    var t := s + [NewStop];
    assert t[..|t| - 1] == s && t[|t| - 1] == NewStop;
    assert SortByOffset(t) == InsertByOffset(SortByOffset(s), NewStop);
    SortSorted(s);
    assert AddStop(g).value.stops == InsertByOffset(s, NewStop);
    InsertPlacement(s, NewStop);
  }

  // ---------------------------------------------------------------------
  // removeStop
  // ---------------------------------------------------------------------

  /** `stops.filter((_, i) => i !== index)` */
  function WithoutIndex(s: seq<GradientStop>, index: int): (r: seq<GradientStop>)
    ensures 0 <= index < |s| ==> r == RemoveAt(s, index)
    ensures !(0 <= index < |s|) ==> r == s
  {
    if 0 <= index < |s| then RemoveAt(s, index) else s
  }

  /** `removeStop(index)`: refused, with no call made, at two stops or fewer. */
  function RemoveStop(g: Option<Gradient>, index: int): (r: Option<Gradient>)
    ensures r.Some? <==> g.Some? && |g.value.stops| > MinStops
    ensures r.Some? && 0 <= index < |g.value.stops| ==>
      |r.value.stops| == |g.value.stops| - 1 &&
      multiset(r.value.stops) + multiset{g.value.stops[index]} == multiset(g.value.stops) &&
      (forall k :: 0 <= k < index ==> r.value.stops[k] == g.value.stops[k]) &&
      (forall k :: index <= k < |r.value.stops| ==> r.value.stops[k] == g.value.stops[k + 1])
    ensures r.Some? && !(0 <= index < |g.value.stops|) ==> r.value.stops == g.value.stops
    ensures r.Some? ==> r.value.kind == g.value.kind && r.value.angle == g.value.angle
  {
    if g.None? || |g.value.stops| <= MinStops then None
    else Some(g.value.(stops := WithoutIndex(g.value.stops, index)))
  }

  /** The editing handlers never take a gradient below two stops when it
      started with at least two. */
  lemma StopsStayAtLeastTwo(g: Gradient, index: int, i: nat, p: StopPatch, q: GradientPatch)
    requires |g.stops| >= MinStops
    ensures var r := RemoveStop(Some(g), index); r.Some? ==> |r.value.stops| >= MinStops
    ensures var r := AddStop(Some(g)); |r.value.stops| > MinStops
    ensures i < |g.stops| ==> |UpdateStop(Some(g), i, p).value.stops| >= MinStops
    ensures q.stops.None? ==> |UpdateGradient(Some(g), q).value.stops| >= MinStops
  {
  }
}
