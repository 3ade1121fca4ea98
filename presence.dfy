/**
 * The canvas component's presence rules: the per-tab cursor id, the
 * debounced and thresholded `cursor_move` sender, the one-second sweep
 * that drops cursors silent for more than three seconds, and the selection
 * clearing when the user leaves the select tool.
 */
module Presence {
  import opened Shapes
  import opened Wire
  import Editor
  import SceneStore

  const StaleAfter := 3000
  const MoveThreshold := 2.0

  /** A cursor not heard from for more than three seconds. */
  predicate Stale(c: Editor.Cursor, now: int) {
    now - c.lastSeen > StaleAfter
  }

  /** The cursors a sweep at `now` keeps. */
  function LiveCursors(cursors: map<Id, Editor.Cursor>, now: int): (r: map<Id, Editor.Cursor>)
    ensures r.Keys <= cursors.Keys
    ensures forall k :: k in r ==> r[k] == cursors[k] && now - cursors[k].lastSeen <= StaleAfter
    ensures forall k :: k in cursors && now - cursors[k].lastSeen <= StaleAfter ==> k in r
  {
    map k | k in cursors && !Stale(cursors[k], now) :: cursors[k]
  }

  /**
   * A cursor stamped by `cursor_moved` at time `t` survives the sweeps up to
   * `t + 3000` and is gone from the first sweep after that.
   */
  lemma CursorLifetime(st: Editor.State, room: Id, userId: Id, clientId: Id, username: string, x: real, y: real, t: int, now: int)
    requires st.roomId == Some(room) && clientId != ""
    ensures var c := Editor.Receive(st, room, CursorMoved(room, userId, clientId, username, x, y), None, t).state.cursors;
      (clientId in LiveCursors(c, now) <==> now <= t + StaleAfter)
  {
    var c := Editor.Receive(st, room, CursorMoved(room, userId, clientId, username, x, y), None, t).state.cursors;
    assert Editor.CursorKey(clientId, userId) == clientId;
    assert clientId in c && c[clientId].lastSeen == t;
  }

  /**
   * The id this tab puts on its cursor, and what session storage holds
   * afterwards: the stored id when there is one, otherwise the generated
   * one, which is stored; without a window, the fixed id "self".
   */
  function SelfCursorId(hasWindow: bool, stored: Option<string>, generated: string): (r: (string, Option<string>))
    ensures !hasWindow ==> r == ("self", stored)
    ensures hasWindow ==> r.1 == Some(r.0)
    ensures hasWindow && stored.Some? && stored.value != "" ==> r == (stored.value, stored)
  {
    if !hasWindow then ("self", stored)
    else if stored.Some? && stored.value != "" then (stored.value, stored)
    else (generated, Some(generated))
  }

  /** A generated id is reused: a second look-up in the same session returns the first one's id. */
  lemma CursorIdStable(stored: Option<string>, generated: string, generated2: string)
    requires generated != ""
    ensures var first := SelfCursorId(true, stored, generated);
      SelfCursorId(true, first.1, generated2) == first
  {
  }

  /** The send threshold: nothing recorded yet, or a move of more than 2 on either axis. */
  predicate MovedEnough(last: Option<Point>, p: Point) {
    last.None? || Abs(last.value.x - p.x) > MoveThreshold || Abs(last.value.y - p.y) > MoveThreshold
  }

  /** The sweep: a loop over a copy of the cursor map, dropping stale entries and noting whether any went. */
  method Sweep(cursors: map<Id, Editor.Cursor>, now: int) returns (live: map<Id, Editor.Cursor>, hasChanges: bool)
    ensures live == LiveCursors(cursors, now)
    ensures hasChanges <==> exists k :: k in cursors && Stale(cursors[k], now)
  {
    live := cursors;
    hasChanges := false;
    var keys := cursors.Keys;
    while keys != {}
      invariant keys <= cursors.Keys
      invariant live.Keys <= cursors.Keys
      invariant forall k :: k in live ==> live[k] == cursors[k]
      invariant forall k :: k in cursors ==> (k in live <==> k in keys || !Stale(cursors[k], now))
      invariant hasChanges <==> exists k :: k in cursors && k !in keys && Stale(cursors[k], now)
      decreases keys
    {
      var k :| k in keys;
      if Stale(cursors[k], now) {
        live := live - {k};
        hasChanges := true;
      }
      keys := keys - {k};
    }
    assert live == LiveCursors(cursors, now);
  }

  /** The canvas component's refs: the last tool, the last position sent, the pending send and this tab's cursor id. */
  class CanvasPresence {
    var previousTool: Editor.Tool
    var lastCursorUpdate: Option<Point>
    /** The position a pending (debounced) send will look at; at most one is pending. */
    var pending: Option<Point>
    var selfId: Id

    constructor(tool: Editor.Tool, hasWindow: bool, stored: Option<string>, generated: string)
      ensures previousTool == tool && lastCursorUpdate.None? && pending.None?
      ensures selfId == SelfCursorId(hasWindow, stored, generated).0
    {
      previousTool := tool;
      lastCursorUpdate := None;
      pending := None;
      selfId := SelfCursorId(hasWindow, stored, generated).0;
    }

    /** The tool changed: leaving the select tool clears the selection. */
    method OnToolChange(store: SceneStore.EditorStore, tool: Editor.Tool)
      modifies this, store
      ensures previousTool == tool
      ensures store.Model() ==
        if old(previousTool) == Editor.SelectTool && tool != Editor.SelectTool
        then Editor.SetSelectedShapeIds(old(store.Model()), [])
        else old(store.Model())
      ensures store.outbox == old(store.outbox)
      ensures lastCursorUpdate == old(lastCursorUpdate) && pending == old(pending) && selfId == old(selfId)
    {
      if previousTool == Editor.SelectTool && tool != Editor.SelectTool {
        store.SetSelectedShapeIds([]);
      }
      previousTool := tool;
    }

    /** A pointer move cancels the pending send and schedules one for this canvas point. */
    method OnPointerMove(p: Point)
      modifies this
      ensures pending == Some(p)
      ensures previousTool == old(previousTool) && lastCursorUpdate == old(lastCursorUpdate) && selfId == old(selfId)
    {
      pending := Some(p);
    }

    /**
     * The pending send fires: past the threshold it sends `cursor_move` (only
     * when connected) and records the position (connected or not).
     */
    method OnSendTimer(room: Id, connected: bool, username: string) returns (sent: Option<ClientMessage>)
      modifies this
      ensures pending.None?
      ensures old(pending).None? ==> sent.None? && lastCursorUpdate == old(lastCursorUpdate)
      ensures old(pending).Some? ==>
        var p := old(pending).value;
        (MovedEnough(old(lastCursorUpdate), p) ==> lastCursorUpdate == Some(p)) &&
        (!MovedEnough(old(lastCursorUpdate), p) ==> lastCursorUpdate == old(lastCursorUpdate)) &&
        (sent.Some? <==> MovedEnough(old(lastCursorUpdate), p) && room != "" && connected) &&
        (sent.Some? ==> sent.value == CursorMove(room, p.x, p.y, username, selfId))
      ensures previousTool == old(previousTool) && selfId == old(selfId)
    {
      sent := None;
      if pending.None? {
        return;
      }
      var p := pending.value;
      pending := None;
      if MovedEnough(lastCursorUpdate, p) {
        if room != "" && connected {
          sent := Some(CursorMove(room, p.x, p.y, username, selfId));
        }
        lastCursorUpdate := Some(p);
      }
    }
  }

  /** The one-second sweep on the store: the cursor map is written only when some cursor went stale. */
  method SweepStore(store: SceneStore.EditorStore, now: int) returns (hasChanges: bool)
    modifies store
    ensures store.Model() == old(store.Model()).(cursors := LiveCursors(old(store.cursors), now))
    ensures store.outbox == old(store.outbox)
    ensures hasChanges <==> exists k :: k in old(store.cursors) && Stale(old(store.cursors)[k], now)
    ensures !hasChanges ==> store.cursors == old(store.cursors)
  {
    var live;
    live, hasChanges := Sweep(store.cursors, now);
    if hasChanges {
      store.cursors := live;
    } else {
      assert live == store.cursors;
    }
  }
}
