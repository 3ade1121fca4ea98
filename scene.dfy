/**
 * The ordered shape list (paint order is list order), the id-keyed edits the
 * stores and the relay apply to it, the selection list, and the undo/redo
 * history of whole-list snapshots.
 */
module Scene {
  import opened Shapes

  /** Some shape in the list has this id (`shapes.some(s => s.id === id)`). */
  predicate HasId(shapes: seq<Shape>, id: Id) {
    exists i :: 0 <= i < |shapes| && shapes[i].id == id
  }

  /** `shapes.filter(s => s.id !== id)`: every shape with that id is dropped. */
  function WithoutId(shapes: seq<Shape>, id: Id): (r: seq<Shape>)
    ensures |r| <= |shapes|
    ensures forall s :: s in r <==> s in shapes && s.id != id
    ensures !HasId(r, id)
    ensures !HasId(shapes, id) ==> r == shapes
    ensures HasId(shapes, id) ==> |r| < |shapes|
  {
    if shapes == [] then []
    else if shapes[0].id == id then WithoutId(shapes[1..], id)
    else [shapes[0]] + WithoutId(shapes[1..], id)
  }

  /** `shapes.map(s => s.id === id ? f(s) : s)` */
  function MapId(shapes: seq<Shape>, id: Id, f: Shape -> Shape): (r: seq<Shape>)
    ensures |r| == |shapes|
    ensures forall i :: 0 <= i < |shapes| && shapes[i].id != id ==> r[i] == shapes[i]
    ensures forall i :: 0 <= i < |shapes| && shapes[i].id == id ==> r[i] == f(shapes[i])
    ensures !HasId(shapes, id) ==> r == shapes
  {
    if shapes == [] then []
    else [if shapes[0].id == id then f(shapes[0]) else shapes[0]] + MapId(shapes[1..], id, f)
  }

  /** The index of the first shape with this id (`findIndex`), if any. */
  function FirstIndex(shapes: seq<Shape>, id: Id): (r: Option<nat>)
    ensures r.None? <==> !HasId(shapes, id)
    ensures r.Some? ==> r.value < |shapes| && shapes[r.value].id == id
    ensures r.Some? ==> forall j :: 0 <= j < r.value ==> shapes[j].id != id
  {
    if shapes == [] then None
    else if shapes[0].id == id then Some(0)
    else match FirstIndex(shapes[1..], id)
      case None => None
      case Some(k) => Some(k + 1)
  }

  /** `shapes.find(s => s.id === id)` */
  function FindById(shapes: seq<Shape>, id: Id): (r: Option<Shape>)
    ensures r.Some? <==> HasId(shapes, id)
    ensures r.Some? ==> r.value in shapes && r.value.id == id
  {
    match FirstIndex(shapes, id)
    case None => None
    case Some(i) => Some(shapes[i])
  }

  /** `ids.filter(sid => sid !== id)` */
  function DropId(ids: seq<Id>, id: Id): (r: seq<Id>)
    ensures forall o :: o in r <==> o in ids && o != id
    ensures id !in ids ==> r == ids
  {
    if ids == [] then []
    else if ids[0] == id then DropId(ids[1..], id)
    else [ids[0]] + DropId(ids[1..], id)
  }

  /** Selection toggle: remove the id if present, otherwise append it. */
  function Toggle(ids: seq<Id>, id: Id): (r: seq<Id>)
    ensures id in r <==> id !in ids
    ensures forall o :: o != id ==> (o in r <==> o in ids)
    ensures id !in ids ==> r == ids + [id]
  {
    if id in ids then DropId(ids, id) else ids + [id]
  }

  /** Every selected id names a shape of the scene. */
  predicate SelectionValid(ids: seq<Id>, shapes: seq<Shape>) {
    forall k :: 0 <= k < |ids| ==> HasId(shapes, ids[k])
  }

  /** The shapes whose id is selected, in scene (paint) order. */
  function SelectedShapes(shapes: seq<Shape>, ids: seq<Id>): (r: seq<Shape>)
    ensures |r| <= |shapes|
    ensures forall s :: s in r <==> s in shapes && s.id in ids
  {
    if shapes == [] then []
    else if shapes[0].id in ids then [shapes[0]] + SelectedShapes(shapes[1..], ids)
    else SelectedShapes(shapes[1..], ids)
  }

  /**
   * The selection keeps scene order: it distributes over concatenation and
   * keeps a single shape exactly when its id is selected, which together
   * determine it as the order-preserving filter.
   */
  lemma {:induction false} SelectedShapesInOrder(a: seq<Shape>, b: seq<Shape>, ids: seq<Id>)
    ensures SelectedShapes(a + b, ids) == SelectedShapes(a, ids) + SelectedShapes(b, ids)
    ensures forall s :: SelectedShapes([s], ids) == if s.id in ids then [s] else []
    decreases |a|
  {
    if a == [] {
      assert a + b == b;
    } else {
      assert (a + b)[0] == a[0];
      assert (a + b)[1..] == a[1..] + b;
      SelectedShapesInOrder(a[1..], b, ids);
    }
    forall s
      ensures SelectedShapes([s], ids) == if s.id in ids then [s] else []
    {
      assert [s][1..] == [];
    }
  }

  // ---------------------------------------------------------------------
  // Undo / redo history of whole-list snapshots
  // ---------------------------------------------------------------------

  /** The current shapes together with the `past` and `future` snapshot stacks. */
  datatype Timeline = Timeline(shapes: seq<Shape>, past: seq<seq<Shape>>, future: seq<seq<Shape>>)

  /** A committed edit: the prior list is pushed on `past` and the redo branch is dropped. */
  function Commit(t: Timeline, next: seq<Shape>): Timeline {
    Timeline(next, t.past + [t.shapes], [])
  }

  /** Top of `past` becomes current; the current list goes to the front of `future`. */
  function Undo(t: Timeline): Timeline {
    if t.past == [] then t
    else Timeline(t.past[|t.past| - 1], t.past[..|t.past| - 1], [t.shapes] + t.future)
  }

  /** Front of `future` becomes current; the current list is pushed on `past`. */
  function Redo(t: Timeline): Timeline {
    if t.future == [] then t
    else Timeline(t.future[0], t.past + [t.shapes], t.future[1..])
  }

  lemma UndoThenRedo(t: Timeline)
    requires t.past != []
    ensures Redo(Undo(t)) == t
  {
    var n := |t.past|;
    assert t.past[..n - 1] + [t.past[n - 1]] == t.past;
  }

  lemma RedoThenUndo(t: Timeline)
    requires t.future != []
    ensures Undo(Redo(t)) == t
  {
    assert [t.future[0]] + t.future[1..] == t.future;
  }

  /** Undoing a committed edit restores the prior list and history and offers the edit for redo. */
  lemma UndoCommit(t: Timeline, next: seq<Shape>)
    ensures Undo(Commit(t, next)) == Timeline(t.shapes, t.past, [next])
    ensures Redo(Undo(Commit(t, next))) == Commit(t, next)
  {
    assert (t.past + [t.shapes])[..|t.past|] == t.past;
  }

  /** Undo and redo move one snapshot between the stacks: their total depth is kept. */
  lemma TravelKeepsDepth(t: Timeline)
    ensures |Undo(t).past| + |Undo(t).future| == |t.past| + |t.future|
    ensures |Redo(t).past| + |Redo(t).future| == |t.past| + |t.future|
  {
  }

  function UndoN(t: Timeline, n: nat): Timeline {
    if n == 0 then t else Undo(UndoN(t, n - 1))
  }

  function RedoN(t: Timeline, n: nat): Timeline
    decreases n
  {
    if n == 0 then t else RedoN(Redo(t), n - 1)
  }

  lemma {:induction false} UndoNDepth(t: Timeline, n: nat)
    requires n <= |t.past|
    ensures |UndoN(t, n).past| == |t.past| - n
  {
    if n > 0 {
      UndoNDepth(t, n - 1);
    }
  }

  /** `n` undos followed by `n` redos give back exactly the original lists and stacks. */
  lemma {:induction false} RedoNUndoN(t: Timeline, n: nat)
    requires n <= |t.past|
    ensures RedoN(UndoN(t, n), n) == t
    decreases n
  {
    if n > 0 {
      var u := UndoN(t, n - 1);
      UndoNDepth(t, n - 1);
      UndoThenRedo(u);
      assert RedoN(UndoN(t, n), n) == RedoN(Redo(Undo(u)), n - 1);
      RedoNUndoN(t, n - 1);
    }
  }

  function CommitAll(t: Timeline, edits: seq<seq<Shape>>): Timeline
    decreases |edits|
  {
    if edits == [] then t else CommitAll(Commit(t, edits[0]), edits[1..])
  }

  lemma {:induction false} CommitAllDepth(t: Timeline, edits: seq<seq<Shape>>)
    ensures |CommitAll(t, edits).past| == |t.past| + |edits|
    decreases |edits|
  {
    if edits != [] {
      CommitAllDepth(Commit(t, edits[0]), edits[1..]);
    }
  }

  /** After `N` committed edits, undoing `N` times and redoing `N` times reproduces the scene. */
  lemma UndoRedoSymmetry(t: Timeline, edits: seq<seq<Shape>>)
    ensures RedoN(UndoN(CommitAll(t, edits), |edits|), |edits|).shapes == CommitAll(t, edits).shapes
  {
    CommitAllDepth(t, edits);
    RedoNUndoN(CommitAll(t, edits), |edits|);
  }
}
