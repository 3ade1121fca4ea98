/**
 * The browser's connection manager: one current socket at most, the room it
 * serves, a bounded exponential reconnect, and the set of message handlers.
 * Socket events (open, message, error, close) and the reconnect timer are
 * method calls; every socket ever created is numbered, and an event names
 * the socket it comes from, since a socket's callbacks act on the manager
 * whether or not it is still the current socket.
 */
module Connection {
  import opened Shapes
  import opened Wire

  const MaxReconnectAttempts := 5
  const ReconnectDelay := 1000

  /** What a `connect` call's promise came to. */
  datatype Outcome = Resolved | Rejected

  /** The answer `connect` gives at once: resolved, rejected, or a new socket whose events will settle it. */
  datatype ConnectResult = AlreadyOpen | InProgress | Started(socket: nat)

  /** A frame written to a socket. */
  datatype Frame = Frame(socket: nat, msg: ClientMessage)

  /** A message passed to a handler. */
  datatype Dispatch = Dispatch(handler: nat, msg: ServerMessage)

  function Pow2(n: nat): (r: nat)
    ensures r >= 1
  {
    if n == 0 then 1 else 2 * Pow2(n - 1)
  }

  /** The wait before reconnect attempt `k` (counting from 1). */
  function Delay(k: nat): nat
    requires k >= 1
  {
    ReconnectDelay * Pow2(k - 1)
  }

  /** The waits of attempts 1 to `n`. */
  function Delays(n: nat): (r: seq<nat>)
    ensures |r| == n
    ensures forall k :: 0 <= k < n ==> r[k] == Delay(k + 1)
  {
    if n == 0 then [] else Delays(n - 1) + [Delay(n)]
  }

  /** Each wait doubles the one before, and the five permitted attempts wait 1, 2, 4, 8 and 16 seconds. */
  lemma {:induction false} BackoffSchedule()
    ensures forall k :: 1 <= k < MaxReconnectAttempts ==> Delay(k + 1) == 2 * Delay(k)
    ensures Delays(MaxReconnectAttempts) == [1000, 2000, 4000, 8000, 16000]
  {
    assert Pow2(1) == 2 && Pow2(2) == 4 && Pow2(3) == 8 && Pow2(4) == 16;
    assert Delays(1) == [1000];
    assert Delays(2) == [1000, 2000];
    assert Delays(3) == [1000, 2000, 4000];
    assert Delays(4) == [1000, 2000, 4000, 8000];
  }

  /** `j` further attempts multiply the wait by `2^j`. */
  lemma {:induction false} DelayGrowth(k: nat, j: nat)
    requires k >= 1
    ensures Delay(k + j) == Pow2(j) * Delay(k)
  {
    if j > 0 {
      DelayGrowth(k, j - 1);
      assert Pow2(k + j - 1) == 2 * Pow2(k + j - 2);
    }
  }

  /** The deliveries of one parsed message: every registered handler, in registration order. */
  function Dispatches(handlers: seq<nat>, msg: ServerMessage): (r: seq<Dispatch>)
    ensures |r| == |handlers|
    ensures forall k :: 0 <= k < |r| ==> r[k] == Dispatch(handlers[k], msg)
  {
    if handlers == [] then [] else Dispatches(handlers[..|handlers| - 1], msg) + [Dispatch(handlers[|handlers| - 1], msg)]
  }

  predicate Distinct(hs: seq<nat>) {
    forall i, j :: 0 <= i < j < |hs| ==> hs[i] != hs[j]
  }

  /** `this.currentRoomId && …`: a room id counts only when it is a non-empty string. */
  predicate HasRoom(room: Option<Id>) {
    room.Some? && room.value != ""
  }

  class WebSocketManager {
    /** The room each socket was created for; socket `g` is `created[g]`. */
    var created: seq<Id>
    /** The current socket, if any, and whether its ready state is OPEN. */
    var ws: Option<nat>
    var wsOpen: bool
    var isConnecting: bool
    var reconnectAttempts: nat
    var currentRoomId: Option<Id>
    /** Registered handlers, in registration order, without repeats. */
    var handlers: seq<nat>
    /** Frames written, reconnect waits scheduled, messages dispatched, and settled `connect` promises by socket. */
    var sent: seq<Frame>
    var timers: seq<nat>
    var delivered: seq<Dispatch>
    var outcomes: map<nat, Outcome>

    predicate Valid()
      reads this
    {
      reconnectAttempts <= MaxReconnectAttempts &&
      (ws.Some? ==> ws.value < |created|) &&
      (!ws.Some? ==> !wsOpen) &&
      Distinct(handlers)
    }

    constructor()
      ensures Valid()
      ensures created == [] && ws.None? && !isConnecting && reconnectAttempts == 0 && currentRoomId.None?
      ensures handlers == [] && sent == [] && timers == [] && delivered == [] && outcomes == map[]
    {
      created, ws, wsOpen, isConnecting, reconnectAttempts, currentRoomId := [], None, false, false, 0, None;
      handlers, sent, timers, delivered, outcomes := [], [], [], [], map[];
    }

    predicate IsConnected()
      reads this
    {
      ws.Some? && wsOpen
    }

    /**
     * `connect(roomId)`: nothing to do when already open on that room; refused
     * while a connection is in progress; otherwise a new socket for the room.
     */
    method Connect(roomId: Id) returns (r: ConnectResult)
      requires Valid()
      modifies this
      ensures Valid()
      ensures old(IsConnected()) && old(currentRoomId) == Some(roomId) ==>
        r == AlreadyOpen && created == old(created) && ws == old(ws) && wsOpen == old(wsOpen) &&
        isConnecting == old(isConnecting) && currentRoomId == old(currentRoomId)
      ensures !(old(IsConnected()) && old(currentRoomId) == Some(roomId)) && old(isConnecting) ==>
        r == InProgress && created == old(created) && ws == old(ws) && wsOpen == old(wsOpen) &&
        isConnecting == old(isConnecting) && currentRoomId == old(currentRoomId)
      ensures !(old(IsConnected()) && old(currentRoomId) == Some(roomId)) && !old(isConnecting) ==>
        r == Started(|old(created)|) && created == old(created) + [roomId] && ws == Some(|old(created)|) &&
        !wsOpen && isConnecting && currentRoomId == Some(roomId)
      ensures r.Started? <==> !(old(IsConnected()) && old(currentRoomId) == Some(roomId)) && !old(isConnecting)
      ensures reconnectAttempts == old(reconnectAttempts) && handlers == old(handlers)
      ensures sent == old(sent) && timers == old(timers) && delivered == old(delivered) && outcomes == old(outcomes)
    {
      if ws.Some? && wsOpen && currentRoomId == Some(roomId) {
        return AlreadyOpen;
      }
      if isConnecting {
        return InProgress;
      }
      isConnecting := true;
      currentRoomId := Some(roomId);
      var g := |created|;
      created := created + [roomId];
      ws := Some(g);
      wsOpen := false;
      r := Started(g);
    }

    /** `send`: written to the current socket when it is open, dropped otherwise. */
    method Send(msg: ClientMessage)
      modifies this
      ensures sent == if IsConnected() then old(sent) + [Frame(ws.value, msg)] else old(sent)
      ensures created == old(created) && ws == old(ws) && wsOpen == old(wsOpen) && isConnecting == old(isConnecting)
      ensures reconnectAttempts == old(reconnectAttempts) && currentRoomId == old(currentRoomId) && handlers == old(handlers)
      ensures timers == old(timers) && delivered == old(delivered) && outcomes == old(outcomes)
    {
      if ws.Some? && wsOpen {
        sent := sent + [Frame(ws.value, msg)];
      }
    }

    /**
     * Socket `g` opened: the attempt counter resets, `join_room` for the room
     * the socket was made for is sent at once, and its `connect` resolves
     * (unless its promise was already settled).
     */
    method OnOpen(g: nat, username: string)
      requires Valid() && g < |created|
      modifies this
      ensures Valid()
      ensures wsOpen == (old(wsOpen) || ws == Some(g))
      ensures !isConnecting && reconnectAttempts == 0
      ensures sent == if IsConnected() then old(sent) + [Frame(ws.value, JoinRoom(old(created)[g], username))] else old(sent)
      ensures outcomes == if g in old(outcomes) then old(outcomes) else old(outcomes)[g := Resolved]
      ensures created == old(created) && ws == old(ws) && currentRoomId == old(currentRoomId) && handlers == old(handlers)
      ensures timers == old(timers) && delivered == old(delivered)
    {
      if ws == Some(g) {
        wsOpen := true;
      }
      isConnecting := false;
      reconnectAttempts := 0;
      Send(JoinRoom(created[g], username));
      if g !in outcomes {
        outcomes := outcomes[g := Resolved];
      }
    }

    /** A frame arrived: a parsed message goes to every handler in order; an unparseable one to none. */
    method OnMessage(parsed: Option<ServerMessage>)
      modifies this
      ensures delivered == old(delivered) + (if parsed.Some? then Dispatches(handlers, parsed.value) else [])
      ensures created == old(created) && ws == old(ws) && wsOpen == old(wsOpen) && isConnecting == old(isConnecting)
      ensures reconnectAttempts == old(reconnectAttempts) && currentRoomId == old(currentRoomId) && handlers == old(handlers)
      ensures sent == old(sent) && timers == old(timers) && outcomes == old(outcomes)
    {
      if parsed.None? {
        return;
      }
      var msg := parsed.value;
      var i := 0;
      while i < |handlers|
        invariant 0 <= i <= |handlers|
        invariant delivered == old(delivered) + Dispatches(handlers[..i], msg)
        invariant created == old(created) && ws == old(ws) && wsOpen == old(wsOpen) && isConnecting == old(isConnecting)
        invariant reconnectAttempts == old(reconnectAttempts) && currentRoomId == old(currentRoomId) && handlers == old(handlers)
        invariant sent == old(sent) && timers == old(timers) && outcomes == old(outcomes)
      {
        assert handlers[..i + 1][..i] == handlers[..i];
        delivered := delivered + [Dispatch(handlers[i], msg)];
        i := i + 1;
      }
      assert handlers[..i] == handlers;
    }

    /** Socket `g` failed: no longer connecting, and its `connect` rejects (unless already settled). */
    method OnError(g: nat)
      requires Valid()
      modifies this
      ensures Valid()
      ensures !isConnecting
      ensures outcomes == if g in old(outcomes) then old(outcomes) else old(outcomes)[g := Rejected]
      ensures created == old(created) && ws == old(ws) && wsOpen == old(wsOpen) && reconnectAttempts == old(reconnectAttempts)
      ensures currentRoomId == old(currentRoomId) && handlers == old(handlers)
      ensures sent == old(sent) && timers == old(timers) && delivered == old(delivered)
    {
      isConnecting := false;
      if g !in outcomes {
        outcomes := outcomes[g := Rejected];
      }
    }

    /**
     * A socket closed: the manager forgets its current socket, and while a
     * room is set and fewer than five attempts were made, counts one more
     * attempt and schedules a reconnect after `Delay(attempts)`.
     */
    method OnClose()
      requires Valid()
      modifies this
      ensures Valid()
      ensures ws.None? && !wsOpen && !isConnecting
      ensures HasRoom(old(currentRoomId)) && old(reconnectAttempts) < MaxReconnectAttempts ==>
        reconnectAttempts == old(reconnectAttempts) + 1 && timers == old(timers) + [Delay(reconnectAttempts)]
      ensures !(HasRoom(old(currentRoomId)) && old(reconnectAttempts) < MaxReconnectAttempts) ==>
        reconnectAttempts == old(reconnectAttempts) && timers == old(timers)
      ensures created == old(created) && currentRoomId == old(currentRoomId) && handlers == old(handlers)
      ensures sent == old(sent) && delivered == old(delivered) && outcomes == old(outcomes)
    {
      isConnecting := false;
      ws := None;
      wsOpen := false;
      if HasRoom(currentRoomId) && reconnectAttempts < MaxReconnectAttempts {
        reconnectAttempts := reconnectAttempts + 1;
        timers := timers + [Delay(reconnectAttempts)];
      }
    }

    /** A scheduled reconnect fires: it reconnects to the current room, if one is still set. */
    method OnReconnectTimer() returns (r: Option<ConnectResult>)
      requires Valid()
      modifies this
      ensures Valid()
      ensures r.Some? <==> HasRoom(old(currentRoomId))
      ensures HasRoom(old(currentRoomId)) ==>
        (r == Some(AlreadyOpen) <==> old(IsConnected())) &&
        (r == Some(InProgress) <==> !old(IsConnected()) && old(isConnecting))
      ensures r.None? || r == Some(AlreadyOpen) || r == Some(InProgress) ==>
        created == old(created) && ws == old(ws) && wsOpen == old(wsOpen) &&
        isConnecting == old(isConnecting) && currentRoomId == old(currentRoomId)
      ensures r.Some? && r.value.Started? ==>
        r.value == Started(|old(created)|) && created == old(created) + [old(currentRoomId).value] &&
        ws == Some(|old(created)|) && !wsOpen && isConnecting && currentRoomId == old(currentRoomId)
      ensures reconnectAttempts == old(reconnectAttempts) && handlers == old(handlers)
      ensures sent == old(sent) && timers == old(timers) && delivered == old(delivered) && outcomes == old(outcomes)
    {
      if HasRoom(currentRoomId) {
        var c := Connect(currentRoomId.value);
        r := Some(c);
      } else {
        r := None;
      }
    }

    /** `disconnect`: no room, no current socket, no handlers; a later close therefore schedules nothing. */
    method Disconnect()
      requires Valid()
      modifies this
      ensures Valid()
      ensures currentRoomId.None? && ws.None? && !wsOpen && handlers == []
      ensures created == old(created) && isConnecting == old(isConnecting) && reconnectAttempts == old(reconnectAttempts)
      ensures sent == old(sent) && timers == old(timers) && delivered == old(delivered) && outcomes == old(outcomes)
    {
      currentRoomId := None;
      ws := None;
      wsOpen := false;
      handlers := [];
    }

    /** `onMessage(handler)`: registered once, at the end of the order. */
    method Subscribe(h: nat)
      requires Valid()
      modifies this
      ensures Valid()
      ensures handlers == if h in old(handlers) then old(handlers) else old(handlers) + [h]
      ensures created == old(created) && ws == old(ws) && wsOpen == old(wsOpen) && isConnecting == old(isConnecting)
      ensures reconnectAttempts == old(reconnectAttempts) && currentRoomId == old(currentRoomId)
      ensures sent == old(sent) && timers == old(timers) && delivered == old(delivered) && outcomes == old(outcomes)
    {
      if h !in handlers {
        handlers := handlers + [h];
      }
    }

    /** The function `onMessage` returns: removes exactly that handler. */
    method Unsubscribe(h: nat)
      requires Valid()
      modifies this
      ensures Valid()
      ensures handlers == Without(old(handlers), h)
      ensures created == old(created) && ws == old(ws) && wsOpen == old(wsOpen) && isConnecting == old(isConnecting)
      ensures reconnectAttempts == old(reconnectAttempts) && currentRoomId == old(currentRoomId)
      ensures sent == old(sent) && timers == old(timers) && delivered == old(delivered) && outcomes == old(outcomes)
    {
      WithoutKeepsDistinct(handlers, h);
      handlers := Without(handlers, h);
    }
  }

  /** `Set.delete`: the handler goes, the others keep their order. */
  function Without(hs: seq<nat>, h: nat): (r: seq<nat>)
    ensures forall x :: x in r <==> x in hs && x != h
    ensures |r| <= |hs|
  {
    if hs == [] then [] else if hs[0] == h then Without(hs[1..], h) else [hs[0]] + Without(hs[1..], h)
  }

  lemma {:induction false} WithoutKeepsDistinct(hs: seq<nat>, h: nat)
    requires Distinct(hs)
    ensures Distinct(Without(hs, h))
  {
    if hs != [] {
      var tail := hs[1..];
      assert forall k :: 0 <= k < |tail| ==> tail[k] == hs[k + 1];
      WithoutKeepsDistinct(tail, h);
      var t := Without(tail, h);
      if hs[0] != h {
        var r := [hs[0]] + t;
        forall i, j | 0 <= i < j < |r|
          ensures r[i] != r[j]
        {
          if i == 0 {
            assert r[j] == t[j - 1] && t[j - 1] in tail;
            var k :| 0 <= k < |tail| && tail[k] == r[j];
            assert hs[k + 1] == r[j];
          } else {
            assert r[i] == t[i - 1] && r[j] == t[j - 1];
          }
        }
        assert Without(hs, h) == r;
      }
    }
  }

  /** Subscribing and then unsubscribing a new handler gives back the handler list. */
  lemma SubscribeThenUnsubscribe(hs: seq<nat>, h: nat)
    requires h !in hs
    ensures Without(hs + [h], h) == hs
  {
    WithoutAppend(hs, h);
  }

  lemma {:induction false} WithoutAppend(hs: seq<nat>, h: nat)
    requires h !in hs
    ensures Without(hs + [h], h) == hs
  {
    if hs == [] {
      assert Without([h], h) == Without([], h);
    } else {
      assert (hs + [h])[1..] == hs[1..] + [h];
      WithoutAppend(hs[1..], h);
    }
  }
}
