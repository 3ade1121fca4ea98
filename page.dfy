/**
 * The drawing page's own rules around the store: the room/local switch on
 * the `roomId` query parameter, the light/dark remap of default stroke and
 * text colours, the text toolbar's targets and its font-size clamps.
 */
module Page {
  import opened Shapes
  import Scene
  import Editor
  import SceneStore
  import Selecting
  import Panel
  import Tools

  // ---------------------------------------------------------------------
  // Room or local mode
  // ---------------------------------------------------------------------

  /**
   * The effect on the `roomId` query parameter: record the room; without one
   * close the connection and load the local drawing; with one, ask for a
   * connection to it (the returned room).
   */
  method OnRoomParam(store: SceneStore.EditorStore, roomParam: Option<Id>, loaded: Option<seq<Editor.Stored>>)
    returns (connectTo: Option<Id>)
    modifies store
    ensures connectTo == roomParam
    ensures roomParam.None? ==>
      store.Model() == Editor.LoadShapesFromStorage(Editor.DisconnectWebSocket(old(store.Model()).(roomId := None)).state, loaded) &&
      store.outbox == old(store.outbox) + [Editor.CloseConnection, Editor.CloseConnection]
    ensures roomParam.Some? ==> store.Model() == old(store.Model()).(roomId := roomParam) && store.outbox == old(store.outbox)
  {
    store.SetRoomId(roomParam);
    if roomParam.None? {
      store.DisconnectWebSocket();
      store.LoadShapesFromStorage(loaded);
    }
    connectTo := roomParam;
  }

  /** In local mode the stored drawing is loaded, if it has a well-formed shape; in a room the shapes are kept. */
  lemma LocalModeLoadsStorage(st: Editor.State, roomParam: Option<Id>, loaded: seq<Editor.Stored>)
    requires roomParam.None?
    ensures var r := Editor.LoadShapesFromStorage(Editor.DisconnectWebSocket(st.(roomId := roomParam)).state, Some(loaded));
      (Editor.WellFormedShapes(loaded) != [] ==> r.shapes == Editor.WellFormedShapes(loaded) && r.past == [] && r.future == []) &&
      (Editor.WellFormedShapes(loaded) == [] ==> r.shapes == st.shapes) &&
      r.roomId.None? && r.cursors == map[]
  {
  }

  /** Leaving the page disconnects only when it had joined a room. */
  method OnUnmount(store: SceneStore.EditorStore, roomParam: Option<Id>)
    modifies store
    ensures roomParam.Some? ==>
      (store.Model() == Editor.DisconnectWebSocket(old(store.Model())).state &&
       store.outbox == old(store.outbox) + [Editor.CloseConnection])
    ensures roomParam.None? ==> store.Model() == old(store.Model()) && store.outbox == old(store.outbox)
  {
    if roomParam.Some? {
      store.DisconnectWebSocket();
    }
  }

  // ---------------------------------------------------------------------
  // Theme remap of default colours
  // ---------------------------------------------------------------------

  datatype Theme = Light | Dark | SystemTheme

  const Black := "#000000"
  const White := "#ffffff"

  /** The default ink of a theme switch: `(previous, next)`; switching to light turns white ink black. */
  function Inks(theme: Theme): (r: (string, string))
    requires theme != SystemTheme
    ensures r.0 != r.1
  {
    if theme == Light then (White, Black) else (Black, White)
  }

  /** The shape's stroke is the ink, or it is a text whose colour is. */
  predicate Inked(s: Shape, ink: string) {
    s.style.stroke == Some(ink) || (s.Text? && s.color == ink)
  }

  predicate AnyInked(shapes: seq<Shape>, ink: string) {
    exists k :: 0 <= k < |shapes| && Inked(shapes[k], ink)
  }

  /** One shape after the remap: a stroke of the previous ink, and a text colour of it, take the next ink. */
  function Repaint(s: Shape, prev: string, next: string): (r: Shape)
    ensures r.id == s.id && (r.Text? <==> s.Text?)
    ensures r.style == s.style.(stroke := if s.style.stroke == Some(prev) then Some(next) else s.style.stroke)
    ensures r.Text? ==> r == s.(style := r.style, color := if s.color == prev then next else s.color)
    ensures r == s.(style := r.style) || (s.Text? && s.color == prev && r == s.(style := r.style, color := next))
  {
    var stroked := if s.style.stroke == Some(prev) then s.(style := s.style.(stroke := Some(next))) else s;
    if stroked.Text? && stroked.color == prev then stroked.(color := next) else stroked
  }

  function Repainted(shapes: seq<Shape>, prev: string, next: string): (r: seq<Shape>)
    ensures |r| == |shapes| && forall k :: 0 <= k < |shapes| ==> r[k] == Repaint(shapes[k], prev, next)
  {
    seq(|shapes|, k requires 0 <= k < |shapes| => Repaint(shapes[k], prev, next))
  }

  /** With two different inks, the remap changes the list exactly when some shape wears the previous ink. */
  lemma RepaintChangesIffInked(shapes: seq<Shape>, prev: string, next: string)
    requires prev != next
    ensures Repainted(shapes, prev, next) != shapes <==> AnyInked(shapes, prev)
  {
    var r := Repainted(shapes, prev, next);
    if AnyInked(shapes, prev) {
      var k :| 0 <= k < |shapes| && Inked(shapes[k], prev);
      if shapes[k].style.stroke == Some(prev) {
        assert r[k].style.stroke == Some(next);
      } else {
        assert r[k].color == next;
      }
      assert r[k] != shapes[k];
    } else {
      forall k | 0 <= k < |shapes|
        ensures r[k] == shapes[k]
      {
        assert !Inked(shapes[k], prev);
      }
    }
  }

  /** Remapping to the next ink and back restores every shape that did not already wear the next ink. */
  lemma RepaintRoundTrip(shapes: seq<Shape>, prev: string, next: string)
    requires prev != next && !AnyInked(shapes, next)
    ensures Repainted(Repainted(shapes, prev, next), next, prev) == shapes
  {
    var back := Repainted(Repainted(shapes, prev, next), next, prev);
    forall k | 0 <= k < |shapes|
      ensures back[k] == shapes[k]
    {
      assert !Inked(shapes[k], next);
    }
  }

  /** The loop over the shapes, noting whether any shape changed. */
  method RepaintShapes(shapes: seq<Shape>, prev: string, next: string) returns (updated: seq<Shape>, hasChanges: bool)
    ensures updated == Repainted(shapes, prev, next)
    ensures hasChanges <==> AnyInked(shapes, prev)
  {
    updated := [];
    hasChanges := false;
    for i := 0 to |shapes|
      invariant |updated| == i
      invariant forall k :: 0 <= k < i ==> updated[k] == Repaint(shapes[k], prev, next)
      invariant hasChanges <==> exists k :: 0 <= k < i && Inked(shapes[k], prev)
    {
      var shape := shapes[i];
      if shape.style.stroke == Some(prev) {
        shape := shape.(style := shape.style.(stroke := Some(next)));
        hasChanges := true;
      }
      if shape.Text? && shape.color == prev {
        shape := shape.(color := next);
        hasChanges := true;
      }
      updated := updated + [shape];
    }
  }

  /**
   * The remap effect: nothing for the system theme or an unchanged one;
   * otherwise, if some shape wears the previous ink, the remapped list is
   * stored with `setShapes` and the selection it clears is put back.
   */
  function ThemeRemap(st: Editor.State, last: Theme, theme: Theme): Editor.Step {
    if theme == SystemTheme || last == theme then Editor.Step(st, [])
    else
      var (prev, next) := Inks(theme);
      if !AnyInked(st.shapes, prev) then Editor.Step(st, [])
      else
        var stored := Editor.SetShapes(st, Repainted(st.shapes, prev, next));
        if |st.selected| > 0 then Editor.Step(Editor.SetSelectedShapeIds(stored.state, st.selected), stored.outbox)
        else stored
  }

  /**
   * The remap keeps the selection; it writes the store (one history entry,
   * one save or sync) only on a light/dark change that repaints some shape,
   * and then stores exactly the repainted list.
   */
  lemma ThemeRemapEffect(st: Editor.State, last: Theme, theme: Theme)
    ensures var r := ThemeRemap(st, last, theme);
      r.state.selected == st.selected &&
      (theme == SystemTheme || last == theme ==> r == Editor.Step(st, [])) &&
      (theme != SystemTheme && last != theme ==>
        (r.state.shapes != st.shapes <==> AnyInked(st.shapes, Inks(theme).0)) &&
        (r.state.shapes == Repainted(st.shapes, Inks(theme).0, Inks(theme).1)) &&
        (AnyInked(st.shapes, Inks(theme).0) ==> |r.state.past| == |st.past| + 1 && |r.outbox| == 1) &&
        (!AnyInked(st.shapes, Inks(theme).0) ==> r == Editor.Step(st, [])))
  {
    if theme != SystemTheme && last != theme {
      RepaintChangesIffInked(st.shapes, Inks(theme).0, Inks(theme).1);
    }
  }

  /**
   * Switching light to dark and back restores the drawing, provided no
   * shape was white to begin with.
   */
  lemma ThemeRoundTrip(st: Editor.State)
    requires !AnyInked(st.shapes, White)
    ensures ThemeRemap(ThemeRemap(st, Light, Dark).state, Dark, Light).state.shapes == st.shapes
  {
    var d := ThemeRemap(st, Light, Dark).state;
    RepaintChangesIffInked(st.shapes, Black, White);
    if AnyInked(st.shapes, Black) {
      RepaintRoundTrip(st.shapes, Black, White);
      RepaintChangesIffInked(d.shapes, White, Black);
    }
  }

  /** The theme the remap effect last ran with. */
  class ThemeSync {
    var lastTheme: Theme

    constructor(theme: Theme)
      ensures lastTheme == theme
    {
      lastTheme := theme;
    }

    /** The effect that runs when the theme or the shapes change. */
    method OnChange(store: SceneStore.EditorStore, theme: Theme)
      modifies this, store
      ensures lastTheme == theme
      ensures store.Model() == ThemeRemap(old(store.Model()), old(lastTheme), theme).state
      ensures store.outbox == old(store.outbox) + ThemeRemap(old(store.Model()), old(lastTheme), theme).outbox
    {
      if theme == SystemTheme {
        lastTheme := theme;
        return;
      }
      if lastTheme == theme {
        return;
      }
      var toLight := theme == Light;
      var nextStroke := if toLight then Black else White;
      var prevStroke := if toLight then White else Black;
      var updated, hasChanges := RepaintShapes(store.shapes, prevStroke, nextStroke);
      if hasChanges {
        var selectedIds := store.selectedShapeIds;
        store.SetShapes(updated);
        if |selectedIds| > 0 {
          store.SetSelectedShapeIds(selectedIds);
        }
      }
      lastTheme := theme;
    }
  }

  /** The theme effect on the current style: black ink turns white in the dark theme and back in the light one. */
  function ThemeInk(st: Editor.State, theme: Theme): (r: Editor.State)
    ensures theme == Dark ==> r.currentStyle.stroke != Some(Black)
    ensures theme == Light ==> r.currentStyle.stroke != Some(White)
    ensures theme == SystemTheme ==> r == st
    ensures r == st.(currentStyle := r.currentStyle)
    ensures r.currentStyle == st.currentStyle.(stroke := r.currentStyle.stroke)
  {
    if theme == Dark && st.currentStyle.stroke == Some(Black) then Editor.SetCurrentStyle(st, NoStyle.(stroke := Some(White)))
    else if theme == Light && st.currentStyle.stroke == Some(White) then Editor.SetCurrentStyle(st, NoStyle.(stroke := Some(Black)))
    else st
  }

  // ---------------------------------------------------------------------
  // The text toolbar
  // ---------------------------------------------------------------------

  const MinFontSize := 8.0
  const MaxFontSize := 96.0
  const FontStep := 2.0

  /** The minus button. */
  function SmallerFont(size: real): real {
    Max(MinFontSize, size - FontStep)
  }

  /** The plus button. */
  function LargerFont(size: real): real {
    Min(MaxFontSize, size + FontStep)
  }

  /** The number field; an empty field reads as 8. */
  function TypedFont(typed: Option<real>): real {
    Min(MaxFontSize, Max(MinFontSize, typed.GetOr(MinFontSize)))
  }

  predicate FontInRange(size: real) {
    MinFontSize <= size <= MaxFontSize
  }

  /** From a size in range, every control keeps the size in range; a typed value always lands in range. */
  lemma FontControlsKeepRange(size: real, typed: Option<real>)
    ensures FontInRange(size) ==> FontInRange(SmallerFont(size)) && FontInRange(LargerFont(size))
    ensures FontInRange(TypedFont(typed))
    ensures SmallerFont(size) >= MinFontSize && LargerFont(size) <= MaxFontSize
  {
  }

  /** Away from the bounds the two buttons undo each other; a typed value in range is taken as it is. */
  lemma FontStepsUndo(size: real)
    ensures MinFontSize <= size <= MaxFontSize - FontStep ==> SmallerFont(LargerFont(size)) == size
    ensures MinFontSize + FontStep <= size <= MaxFontSize ==> LargerFont(SmallerFont(size)) == size
    ensures FontInRange(size) ==> TypedFont(Some(size)) == size
    ensures size < MinFontSize ==> TypedFont(Some(size)) == MinFontSize
    ensures size > MaxFontSize ==> TypedFont(Some(size)) == MaxFontSize
  {
  }

  /** The text style the toolbar shows and applies. */
  datatype TextStyle = TextStyle(fontSize: real, fontFamily: string, fontWeight: FontWeight,
                                 fontStyle: FontSlant, textAlign: TextAlign)

  /** A partial text style: the fields a control changes. */
  datatype TextPatch = TextPatch(fontSize: Option<real>, fontFamily: Option<string>, fontWeight: Option<FontWeight>,
                                 fontStyle: Option<FontSlant>, textAlign: Option<TextAlign>)

  function Merge(ts: TextStyle, patch: TextPatch): (r: TextStyle)
    ensures patch.fontSize.Some? ==> r.fontSize == patch.fontSize.value
    ensures patch.fontSize.None? ==> r.fontSize == ts.fontSize
  {
    TextStyle(patch.fontSize.GetOr(ts.fontSize), patch.fontFamily.GetOr(ts.fontFamily),
              patch.fontWeight.GetOr(ts.fontWeight), patch.fontStyle.GetOr(ts.fontStyle),
              patch.textAlign.GetOr(ts.textAlign))
  }

  /** The text shapes of a list, in order. */
  function TextsOf(shapes: seq<Shape>): (r: seq<Shape>)
    ensures |r| <= |shapes|
    ensures forall s :: s in r <==> s in shapes && s.Text?
  {
    if shapes == [] then []
    else if shapes[0].Text? then [shapes[0]] + TextsOf(shapes[1..])
    else TextsOf(shapes[1..])
  }

  /** The first text shape with the id, if any. */
  function FindText(shapes: seq<Shape>, id: Id): (r: Option<Shape>)
    ensures r.Some? ==> r.value in shapes && r.value.Text? && r.value.id == id
    ensures r.None? ==> forall s :: s in shapes ==> !(s.Text? && s.id == id)
  {
    if shapes == [] then None
    else if shapes[0].Text? && shapes[0].id == id then Some(shapes[0])
    else FindText(shapes[1..], id)
  }

  /**
   * The shapes the toolbar edits: the text being edited when there is one
   * (a non-empty id), otherwise the selected text shapes in scene order.
   */
  function TextTargets(shapes: seq<Shape>, selected: seq<Id>, editing: Option<Id>): (r: seq<Shape>)
    ensures editing.Some? && editing.value != "" ==> |r| <= 1
    ensures editing.Some? && editing.value != "" ==>
      (forall s :: s in r <==> s in shapes && s.Text? && s.id == editing.value && FindText(shapes, editing.value) == Some(s))
    ensures !(editing.Some? && editing.value != "") ==> (forall s :: s in r <==> s in shapes && s.Text? && s.id in selected)
  {
    if editing.Some? && editing.value != "" then
      match FindText(shapes, editing.value)
      case None => []
      case Some(s) => [s]
    else TextsOf(Scene.SelectedShapes(shapes, selected))
  }

  /** Keeping only the text shapes keeps the ids unique. */
  lemma {:induction false} TextsOfUnique(shapes: seq<Shape>)
    requires Tools.UniqueIds(shapes)
    ensures Tools.UniqueIds(TextsOf(shapes))
  {
    if shapes != [] {
      var tail := shapes[1..];
      assert Tools.UniqueIds(tail) by {
        forall i, j | 0 <= i < j < |tail|
          ensures tail[i].id != tail[j].id
        {
          assert tail[i] == shapes[i + 1] && tail[j] == shapes[j + 1];
        }
      }
      TextsOfUnique(tail);
      if shapes[0].Text? {
        var rest := TextsOf(tail);
        forall s | s in rest
          ensures s.id != shapes[0].id
        {
          var k :| 0 <= k < |tail| && tail[k] == s;
          assert shapes[k + 1] == s;
        }
        var r := [shapes[0]] + rest;
        forall i, j | 0 <= i < j < |r|
          ensures r[i].id != r[j].id
        {
          assert r[j] == rest[j - 1] && rest[j - 1] in rest;
          if i > 0 {
            assert r[i] == rest[i - 1];
          }
        }
      }
    }
  }

  /** Unique shape ids are distinct ids. */
  lemma UniqueIdsDistinct(shapes: seq<Shape>)
    requires Tools.UniqueIds(shapes)
    ensures Selecting.DistinctIds(Panel.Ids(shapes))
  {
  }

  /**
   * The updater run on each target: the text takes the merged style; when a
   * drawing context is there to measure it, its box becomes the measured
   * width by the font size. Other shapes are returned as they are.
   */
  function Retext(s: Shape, ts: TextStyle, measure: Option<Shape -> real>): (r: Shape)
    ensures r.id == s.id && r.style == s.style
    ensures !s.Text? ==> r == s
    ensures s.Text? ==>
      (r.Text? && r.fontSize == ts.fontSize && r.fontFamily == ts.fontFamily &&
       r.layout == TextLayout(Some(ts.fontWeight), Some(ts.fontStyle), Some(ts.textAlign)) &&
       r.text == s.text && r.x == s.x && r.y == s.y && r.color == s.color)
    ensures s.Text? && measure.Some? ==> r.h == ts.fontSize
    ensures measure.None? ==> s.Text? ==> r.w == s.w && r.h == s.h
  {
    match s
    case Text(id, x, y, txt, _, _, col, w, h, _, st) =>
      var layout := TextLayout(Some(ts.fontWeight), Some(ts.fontStyle), Some(ts.textAlign));
      var next := Text(id, x, y, txt, ts.fontSize, ts.fontFamily, col, w, h, layout, st);
      if measure.Some? then Text(id, x, y, txt, ts.fontSize, ts.fontFamily, col, measure.value(next), ts.fontSize, layout, st)
      else next
    case _ => s
  }

  function Retexter(ts: TextStyle, measure: Option<Shape -> real>): Shape -> Shape {
    s => Retext(s, ts, measure)
  }

  /**
   * The text half of `syncStyleFromShape`: a text shape's font fields, where
   * it has them, override the toolbar's style; any other shape leaves it.
   */
  function SyncedTextStyle(ts: TextStyle, s: Shape): TextStyle {
    if s.Text? then
      Merge(ts, TextPatch(Some(s.fontSize), Some(s.fontFamily), s.layout.fontWeight, s.layout.fontStyle, s.layout.textAlign))
    else ts
  }

  /**
   * Syncing from a shape is the identity on non-text shapes, and syncing from
   * a text the toolbar just restyled gives back exactly the style applied,
   * whatever the toolbar held before.
   */
  lemma SyncedTextStyleMeaning(before: TextStyle, s: Shape, ts: TextStyle, measure: Option<Shape -> real>)
    ensures !s.Text? ==> SyncedTextStyle(before, s) == before
    ensures s.Text? ==> SyncedTextStyle(before, Retext(s, ts, measure)) == ts
    ensures s.Text? && s.layout.fontWeight.None? ==> SyncedTextStyle(before, s).fontWeight == before.fontWeight
    ensures s.Text? ==> SyncedTextStyle(before, s).fontSize == s.fontSize
  {
  }

  /** The toolbar's text state as the store holds it. */
  class TextToolbar {
    var currentTextStyle: TextStyle
    var editingTextId: Option<Id>

    constructor(ts: TextStyle)
      ensures currentTextStyle == ts && editingTextId.None?
    {
      currentTextStyle := ts;
      editingTextId := None;
    }

    /** `applyTextUpdates`: no targets, no change; otherwise every target is updated and the style is kept. */
    method ApplyTextUpdates(store: SceneStore.EditorStore, patch: TextPatch, measure: Option<Shape -> real>)
      modifies this, store
      ensures var targets := TextTargets(old(store.shapes), old(store.selectedShapeIds), old(editingTextId));
        var ts := Merge(old(currentTextStyle), patch);
        var step := Selecting.UpdateEach(old(store.Model()), Panel.Ids(targets), Panel.Always(Retexter(ts, measure)));
        (targets == [] ==> currentTextStyle == old(currentTextStyle) && store.Model() == old(store.Model()) &&
                           store.outbox == old(store.outbox)) &&
        (targets != [] ==> currentTextStyle == ts && store.Model() == step.state &&
                           store.outbox == old(store.outbox) + step.outbox)
      ensures editingTextId == old(editingTextId)
    {
      var targets := TextTargets(store.shapes, store.selectedShapeIds, editingTextId);
      if |targets| == 0 {
        return;
      }
      var nextStyle := Merge(currentTextStyle, patch);
      Selecting.UpdateSelected(store, Panel.Ids(targets), Panel.Always(Retexter(nextStyle, measure)));
      currentTextStyle := nextStyle;
    }

    /** The `currentTextStyle` update of `syncStyleFromShape`. */
    method SyncFromShape(s: Shape)
      modifies this
      ensures currentTextStyle == SyncedTextStyle(old(currentTextStyle), s)
      ensures editingTextId == old(editingTextId)
    {
      if s.Text? {
        currentTextStyle := Merge(currentTextStyle, TextPatch(Some(s.fontSize), Some(s.fontFamily), s.layout.fontWeight,
                                                              s.layout.fontStyle, s.layout.textAlign));
      }
    }
  }

  /**
   * With unique ids and no text being edited, applying a text style changes
   * exactly the selected text shapes, in place, and nothing else.
   */
  lemma TextUpdateEffect(st: Editor.State, ts: TextStyle, measure: Option<Shape -> real>)
    requires Tools.UniqueIds(st.shapes)
    ensures var targets := TextTargets(st.shapes, st.selected, None);
      var r := Selecting.UpdateEach(st, Panel.Ids(targets), Panel.Always(Retexter(ts, measure))).state;
      |r.shapes| == |st.shapes| &&
      (forall k :: 0 <= k < |st.shapes| ==>
        r.shapes[k] == if st.shapes[k].Text? && st.shapes[k].id in st.selected then Retext(st.shapes[k], ts, measure)
                       else st.shapes[k]) &&
      r.selected == st.selected && r.currentStyle == st.currentStyle
  {
    var sel := Scene.SelectedShapes(st.shapes, st.selected);
    var targets := TextTargets(st.shapes, st.selected, None);
    var edit := Panel.Always(Retexter(ts, measure));
    Panel.SelectedUnique(st.shapes, st.selected);
    TextsOfUnique(sel);
    UniqueIdsDistinct(targets);
    Selecting.UpdateEachMeaning(st, Panel.Ids(targets), edit);
    forall k | 0 <= k < |st.shapes|
      ensures Selecting.Edited(st.shapes[k], Panel.Ids(targets), edit) ==
        if st.shapes[k].Text? && st.shapes[k].id in st.selected then Retext(st.shapes[k], ts, measure) else st.shapes[k]
    {
      var s := st.shapes[k];
      if s.id in Panel.Ids(targets) {
        var j :| 0 <= j < |targets| && Panel.Ids(targets)[j] == s.id;
        assert targets[j] in targets;
      }
    }
  }
}
