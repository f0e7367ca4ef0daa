/** The bounded undo/redo discipline of the editor state hook. `present` is the
    editor state without its stacks; every stored snapshot is such a stack-less
    state (`{ ...prev, undoStack: [], redoStack: [] }`). */
module UndoHistory {

  datatype History<S> = History(present: S, undo: seq<S>, redo: seq<S>)

  /** The most snapshots the undo stack ever holds: `slice(-19)` plus one. */
  const MaxUndo: nat := 20

  /** `s.slice(-n)` for `n > 0`: the newest `n` entries, or all of them. */
  function LastN<S>(s: seq<S>, n: nat): (r: seq<S>)
    ensures |r| == if |s| <= n then |s| else n
    ensures r == s[|s| - |r|..]
  {
    if |s| <= n then s else s[|s| - n..]
  }

  /** `addToUndoStack`: remember the present, forget the redo branch. */
  function Push<S>(h: History<S>): (r: History<S>)
    ensures r.present == h.present && r.redo == []
    ensures 1 <= |r.undo| <= MaxUndo && r.undo[|r.undo| - 1] == h.present
    ensures r.undo[..|r.undo| - 1] == LastN(h.undo, MaxUndo - 1)
  {
    History(h.present, LastN(h.undo, MaxUndo - 1) + [h.present], [])
  }

  /** `undo`: restore the newest snapshot and save the present for redo. */
  function Undo<S>(h: History<S>): (r: History<S>)
    ensures h.undo == [] ==> r == h
    ensures h.undo != [] ==>
      r.present == h.undo[|h.undo| - 1] && r.undo == h.undo[..|h.undo| - 1] &&
      r.redo == h.redo + [h.present]
  {
    if h.undo == [] then h
    else History(h.undo[|h.undo| - 1], h.undo[..|h.undo| - 1], h.redo + [h.present])
  }

  /** `redo`: the mirror image; the undo stack grows without the cap. */
  function Redo<S>(h: History<S>): (r: History<S>)
    ensures h.redo == [] ==> r == h
    ensures h.redo != [] ==>
      r.present == h.redo[|h.redo| - 1] && r.redo == h.redo[..|h.redo| - 1] &&
      r.undo == h.undo + [h.present]
  {
    if h.redo == [] then h
    else History(h.redo[|h.redo| - 1], h.undo + [h.present], h.redo[..|h.redo| - 1])
  }

  /** The state update that follows the push in an undoable operation. */
  function Edit<S>(h: History<S>, s: S): History<S> {
    h.(present := s)
  }

  /** The two stacks together never hold more than `MaxUndo` snapshots. */
  predicate Bounded<S>(h: History<S>) {
    |h.undo| + |h.redo| <= MaxUndo
  }

  /** Every step keeps the bound, so in particular the undo stack alone never
      exceeds 20 even though `redo` appends to it without `slice(-19)`. Undo and
      redo move one snapshot between the stacks and keep the total. */
  lemma BoundedInvariant<S>(h: History<S>, s: S)
    requires Bounded(h)
    ensures Bounded(Push(h)) && Bounded(Edit(h, s)) && Bounded(Undo(h)) && Bounded(Redo(h))
    ensures |Undo(h).undo| + |Undo(h).redo| == |h.undo| + |h.redo|
    ensures |Redo(h).undo| + |Redo(h).redo| == |h.undo| + |h.redo|
    ensures |Redo(h).undo| <= MaxUndo
  {
  }

  /** Redo right after an undo gives back the state before the undo, stacks
      included, and vice versa. */
  lemma UndoRedoInverse<S>(h: History<S>)
    ensures h.undo != [] ==> Redo(Undo(h)) == h
    ensures h.redo != [] ==> Undo(Redo(h)) == h
  {
    if h.undo != [] {
      var u := Undo(h);
      assert u.undo + [u.present] == h.undo;
    }
    if h.redo != [] {
      var r := Redo(h);
      assert r.redo + [r.present] == h.redo;
    }
  }

  /** Undo straight after an undoable edit restores the state before the edit,
      and the edited state becomes the only redo entry. */
  lemma UndoAfterEdit<S>(h: History<S>, s: S)
    ensures Undo(Edit(Push(h), s)) == History(h.present, LastN(h.undo, MaxUndo - 1), [s])
  {
    var p := Edit(Push(h), s);
    assert p.undo[..|p.undo| - 1] == LastN(h.undo, MaxUndo - 1);
  }

  /** A run of undoable edits, each storing the state it started from. */
  function ApplyEdits<S>(h: History<S>, edits: seq<S>): History<S>
    decreases |edits|
  {
    if edits == [] then h else ApplyEdits(Edit(Push(h), edits[0]), edits[1..])
  }

  function UndoTimes<S>(h: History<S>, k: nat): History<S>
    decreases k
  {
    if k == 0 then h else UndoTimes(Undo(h), k - 1)
  }

  /** `k` redos in a row, the last one applied to the result of the others. */
  function RedoTimes<S>(h: History<S>, k: nat): History<S>
    decreases k
  {
    if k == 0 then h else Redo(RedoTimes(h, k - 1))
  }

  /** As many redos as there were undos bring back the history from before
      the undos, stacks included, as long as every undo had a snapshot to
      restore. */
  lemma {:induction false} RedoTimesAfterUndoTimes<S>(h: History<S>, k: nat)
    requires k <= |h.undo|
    ensures RedoTimes(UndoTimes(h, k), k) == h
    decreases k
  {
    if k > 0 {
      RedoTimesAfterUndoTimes(Undo(h), k - 1);
      UndoRedoInverse(h);
    }
  }

  /** Keeping the newest `n - 1` and then appending one keeps the newest `n`. */
  lemma LastNAppend<S>(x: seq<S>, p: S, n: nat)
    requires n > 0
    ensures LastN(x, n - 1) + [p] == LastN(x + [p], n)
  {
  }

  /** One undoable edit: the old present joins the capped undo stack. */
  lemma PushEdit<S>(h: History<S>, s: S)
    ensures Edit(Push(h), s) == History(s, LastN(h.undo + [h.present], MaxUndo), [])
  {
    LastNAppend(h.undo, h.present, MaxUndo);
  }

  /** After a run of edits the present is the last edited state and the redo
      stack is empty. */
  lemma {:induction false} ApplyEditsPresent<S>(h: History<S>, edits: seq<S>)
    requires edits != []
    ensures ApplyEdits(h, edits).present == edits[|edits| - 1]
    ensures ApplyEdits(h, edits).redo == []
    decreases |edits|
  {
    if |edits| > 1 {
      ApplyEditsPresent(Edit(Push(h), edits[0]), edits[1..]);
    }
  }

  /** After `k` edits the undo stack is the newest 20 of: the old stack, the
      starting state, and every edited state but the last. */
  lemma {:induction false} ApplyEditsShape<S>(h: History<S>, edits: seq<S>)
    requires edits != []
    ensures ApplyEdits(h, edits).undo == LastN(h.undo + [h.present] + edits[..|edits| - 1], MaxUndo)
    decreases |edits|
  {
    var a := h.undo + [h.present];
    var h1 := Edit(Push(h), edits[0]);
    PushEdit(h, edits[0]);
    var rest := edits[1..];
    assert ApplyEdits(h, edits) == ApplyEdits(h1, rest);
    if rest == [] {
      assert edits[..0] == [];
      assert a + edits[..0] == a;
    } else {
      ApplyEditsShape(h1, rest);
      assert h1.undo == LastN(a, MaxUndo) && h1.present == edits[0];
      ShapeJoin(a, edits);
    }
  }

  /** The induction step of ApplyEditsShape on the stack contents. */
  lemma ShapeJoin<S>(a: seq<S>, edits: seq<S>)
    requires |edits| >= 2
    ensures LastN(LastN(a, MaxUndo) + [edits[0]] + edits[1..][..|edits| - 2], MaxUndo)
      == LastN(a + edits[..|edits| - 1], MaxUndo)
  {
    var b := [edits[0]] + edits[1..][..|edits| - 2];
    assert b == edits[..|edits| - 1];
    assert LastN(a, MaxUndo) + [edits[0]] + edits[1..][..|edits| - 2] == LastN(a, MaxUndo) + b;
    LastNTail(a, b, MaxUndo);
  }

  /** Keeping the newest `n` entries before or after appending makes no difference. */
  lemma LastNTail<S>(a: seq<S>, b: seq<S>, n: nat)
    ensures LastN(LastN(a, n) + b, n) == LastN(a + b, n)
  {
    var la := LastN(a, n);
    if |la + b| > n {
      assert (la + b)[|la + b| - n..] == (a + b)[|a + b| - n..];
    } else if |a| > n {
      assert b == [] && la + b == la && a + b == a;
    }
  }

  /** Undoing `k` times pops the `k` newest snapshots in turn. */
  lemma {:induction false} UndoTimesPops<S>(g: History<S>, k: nat)
    requires 1 <= k <= |g.undo|
    ensures UndoTimes(g, k).present == g.undo[|g.undo| - k]
    decreases k
  {
    if k > 1 {
      UndoTimesPops(Undo(g), k - 1);
    }
  }

  /** Up to 20 consecutive undoable edits can all be undone: as many undos
      bring back the state the first edit started from. */
  lemma MultiUndoRestores<S>(h: History<S>, edits: seq<S>)
    requires 1 <= |edits| <= MaxUndo
    ensures UndoTimes(ApplyEdits(h, edits), |edits|).present == h.present
  {
    ApplyEditsShape(h, edits);
    ApplyEditsPresent(h, edits);
    var x := h.undo + [h.present] + edits[..|edits| - 1];
    var g := ApplyEdits(h, edits);
    UndoTimesPops(g, |edits|);
    assert g.undo[|g.undo| - |edits|] == x[|x| - |edits|];
  }
}
