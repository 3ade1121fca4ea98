/**
 * The relay server: the table of connections and the rooms each has joined,
 * the per-room persisted shape lists, and the room broadcast. Messages are
 * handled one at a time. The key-value store becomes a map from room to
 * shape list plus an "open" flag; a failing store call is the `fault`
 * argument of a handler. What the server does is recorded, in order, in
 * `log`: store writes and deliveries to sockets.
 */
module Relay {
  import opened Shapes
  import opened Wire
  import Scene

  /** A connection, identified by its socket. */
  type SocketId = nat

  datatype User = User(socket: SocketId, rooms: seq<Id>, userId: Id, username: string)

  datatype Event = Deliver(to: SocketId, msg: ServerMessage) | Write(room: Id, shapes: seq<Shape>)

  const DefaultUsername := "Anonymous"
  const ProcessingFailed := "Failed to process message"

  /** The index of the connection on this socket (`Users.findIndex(u => u.ws === socket)`). */
  function FindUser(users: seq<User>, socket: SocketId): (r: Option<nat>)
    ensures r.Some? ==> r.value < |users| && users[r.value].socket == socket
    ensures r.Some? ==> forall j :: 0 <= j < r.value ==> users[j].socket != socket
    ensures r.None? <==> forall j :: 0 <= j < |users| ==> users[j].socket != socket
  {
    if users == [] then None
    else if users[0].socket == socket then Some(0)
    else match FindUser(users[1..], socket)
      case None => None
      case Some(k) => Some(k + 1)
  }

  /** A user receives a room broadcast: a member of the room, its socket open and not the excluded one. */
  predicate Receives(u: User, open: set<SocketId>, room: Id, exclude: Option<SocketId>) {
    room in u.rooms && u.socket in open && exclude != Some(u.socket)
  }

  /** `broadcastToRoom`: one delivery per receiving user, in table order. */
  function Broadcast(users: seq<User>, open: set<SocketId>, room: Id, msg: ServerMessage, exclude: Option<SocketId>): seq<Event>
  {
    if users == [] then []
    else
      var last := users[|users| - 1];
      Broadcast(users[..|users| - 1], open, room, msg, exclude) +
      (if Receives(last, open, room, exclude) then [Deliver(last.socket, msg)] else [])
  }

  /**
   * A broadcast delivers the message, and only it, to exactly the users that
   * receive it: members of the room whose socket is open, minus the excluded one.
   */
  lemma {:induction false} BroadcastMeaning(users: seq<User>, open: set<SocketId>, room: Id, msg: ServerMessage, exclude: Option<SocketId>)
    ensures var b := Broadcast(users, open, room, msg, exclude);
      |b| <= |users| &&
      (forall e :: e in b ==> e.Deliver? && e.msg == msg) &&
      (forall s :: Deliver(s, msg) in b <==> exists i :: 0 <= i < |users| && users[i].socket == s && Receives(users[i], open, room, exclude))
  {
    if users != [] {
      var init := users[..|users| - 1];
      BroadcastMeaning(init, open, room, msg, exclude);
      forall s
        ensures Deliver(s, msg) in Broadcast(users, open, room, msg, exclude) <==>
                exists i :: 0 <= i < |users| && users[i].socket == s && Receives(users[i], open, room, exclude)
      {
        if exists i :: 0 <= i < |users| && users[i].socket == s && Receives(users[i], open, room, exclude) {
          var i :| 0 <= i < |users| && users[i].socket == s && Receives(users[i], open, room, exclude);
          if i < |users| - 1 {
            assert init[i] == users[i];
          }
        }
        if Deliver(s, msg) in Broadcast(init, open, room, msg, exclude) {
          var i :| 0 <= i < |init| && init[i].socket == s && Receives(init[i], open, room, exclude);
          assert users[i] == init[i];
        }
      }
    }
  }

  /** The excluded socket never hears the broadcast. */
  lemma ExcludedHearsNothing(users: seq<User>, open: set<SocketId>, room: Id, msg: ServerMessage, s: SocketId)
    ensures Deliver(s, msg) !in Broadcast(users, open, room, msg, Some(s))
  {
    BroadcastMeaning(users, open, room, msg, Some(s));
  }

  /** Without an exclusion the sender, if a member with an open socket, is sent its own event back. */
  lemma SenderHearsEcho(users: seq<User>, open: set<SocketId>, i: nat, room: Id, msg: ServerMessage)
    requires i < |users| && room in users[i].rooms && users[i].socket in open
    ensures Deliver(users[i].socket, msg) in Broadcast(users, open, room, msg, None)
  {
    BroadcastMeaning(users, open, room, msg, None);
  }

  /** The room's persisted list; a missing key reads as empty. */
  function Stored(store: map<Id, seq<Shape>>, room: Id): seq<Shape> {
    if room in store then store[room] else []
  }

  /** `shape_update` on the persisted list: replace the first entry with the id, or append. */
  function Upsert(shapes: seq<Shape>, shape: Shape): (r: seq<Shape>)
    ensures Scene.FindById(r, shape.id) == Some(shape)
    ensures Scene.HasId(shapes, shape.id) ==> |r| == |shapes|
    ensures !Scene.HasId(shapes, shape.id) ==> r == shapes + [shape]
    ensures forall i :: 0 <= i < |shapes| && shapes[i].id != shape.id ==> r[i] == shapes[i]
  {
    match Scene.FirstIndex(shapes, shape.id)
    case None =>
      assert (shapes + [shape])[|shapes|] == shape;
      shapes + [shape]
    case Some(i) =>
      assert Scene.FirstIndex(shapes[i := shape], shape.id) == Some(i) by {
        FirstIndexUnique(shapes[i := shape], shape.id, i);
      }
      shapes[i := shape]
  }

  lemma FirstIndexUnique(shapes: seq<Shape>, id: Id, i: nat)
    requires i < |shapes| && shapes[i].id == id
    requires forall j :: 0 <= j < i ==> shapes[j].id != id
    ensures Scene.FirstIndex(shapes, id) == Some(i)
  {
    var r := Scene.FirstIndex(shapes, id);
    assert r.Some?;
  }

  /** Upserting the same shape twice is upserting it once; the other entries keep their places. */
  lemma UpsertIdempotent(shapes: seq<Shape>, shape: Shape)
    ensures Upsert(Upsert(shapes, shape), shape) == Upsert(shapes, shape)
  {
    var once := Upsert(shapes, shape);
    var i := Scene.FirstIndex(once, shape.id).value;
    assert once[i] == shape;
    assert once[i := shape] == once;
  }

  /** The list `room_joined` carries: empty when the store is closed or failed, otherwise the persisted list. */
  function JoinedShapes(store: map<Id, seq<Shape>>, storeOpen: bool, fault: bool, room: Id): seq<Shape> {
    if !storeOpen || fault then [] else Stored(store, room)
  }

  /** The connection after `join_room`: a non-empty username replaces the old one; the room is added once. */
  function Joined(u: User, room: Id, username: string): (r: User)
    ensures room in r.rooms && r.socket == u.socket && r.userId == u.userId
    ensures forall o :: o in r.rooms <==> o in u.rooms || o == room
    ensures r.username == if username != "" then username else u.username
  {
    u.(username := if username != "" then username else u.username,
       rooms := if room in u.rooms then u.rooms else u.rooms + [room])
  }

  predicate NoDuplicates(ids: seq<Id>) {
    forall i, j :: 0 <= i < j < |ids| ==> ids[i] != ids[j]
  }

  /** A room is joined at most once: joining keeps the room list free of duplicates, and joining again changes no rooms. */
  lemma JoinAtMostOnce(u: User, room: Id, username: string)
    requires NoDuplicates(u.rooms)
    ensures NoDuplicates(Joined(u, room, username).rooms)
    ensures Joined(Joined(u, room, username), room, username).rooms == Joined(u, room, username).rooms
  {
  }

  /** The `user_left` broadcasts of a closing connection, one per joined room, in join order. */
  function LeftEvents(users: seq<User>, open: set<SocketId>, rooms: seq<Id>, userId: Id): seq<Event>
  {
    if rooms == [] then []
    else
      var last := rooms[|rooms| - 1];
      LeftEvents(users, open, rooms[..|rooms| - 1], userId) + Broadcast(users, open, last, UserLeft(last, userId), None)
  }

  /** Every event of a close is a `user_left` for one of the leaver's rooms, sent to a member of that room. */
  lemma {:induction false} LeftEventsMeaning(users: seq<User>, open: set<SocketId>, rooms: seq<Id>, userId: Id)
    ensures forall e :: e in LeftEvents(users, open, rooms, userId) ==>
      e.Deliver? && e.msg.UserLeft? && e.msg.userId == userId && e.msg.roomId in rooms &&
      exists i :: 0 <= i < |users| && users[i].socket == e.to && Receives(users[i], open, e.msg.roomId, None)
  {
    if rooms != [] {
      var init := rooms[..|rooms| - 1];
      var last := rooms[|rooms| - 1];
      LeftEventsMeaning(users, open, init, userId);
      BroadcastMeaning(users, open, last, UserLeft(last, userId), None);
      forall e | e in LeftEvents(users, open, rooms, userId)
        ensures e.Deliver? && e.msg.UserLeft? && e.msg.userId == userId && e.msg.roomId in rooms &&
          exists i :: 0 <= i < |users| && users[i].socket == e.to && Receives(users[i], open, e.msg.roomId, None)
      {
        if e in LeftEvents(users, open, init, userId) {
          assert e.msg.roomId in init;
        } else {
          assert e in Broadcast(users, open, last, UserLeft(last, userId), None);
          assert Deliver(e.to, UserLeft(last, userId)) in Broadcast(users, open, last, UserLeft(last, userId), None);
        }
      }
    }
  }

  predicate WellFormed(users: seq<User>) {
    (forall i, j :: 0 <= i < j < |users| ==> users[i].socket != users[j].socket) &&
    (forall i :: 0 <= i < |users| ==> NoDuplicates(users[i].rooms))
  }

  /** `Users.splice(i, 1)` keeps the table well formed and leaves no entry for the removed socket. */
  lemma SpliceOut(users: seq<User>, i: nat)
    requires WellFormed(users) && i < |users|
    ensures WellFormed(users[..i] + users[i + 1..])
    ensures FindUser(users[..i] + users[i + 1..], users[i].socket).None?
  {
    var r := users[..i] + users[i + 1..];
    forall j | 0 <= j < |r|
      ensures r[j] == if j < i then users[j] else users[j + 1]
    {
    }
  }

  class RelayServer {
    var users: seq<User>
    /** Sockets whose ready state is OPEN. */
    var open: set<SocketId>
    var store: map<Id, seq<Shape>>
    var storeOpen: bool
    var log: seq<Event>

    /** Every socket has one table entry, and no entry lists a room twice. */
    predicate Valid()
      reads this
    {
      WellFormed(users)
    }

    constructor(storeOpen: bool)
      ensures Valid() && users == [] && open == {} && store == map[] && this.storeOpen == storeOpen && log == []
    {
      users, open, store, this.storeOpen, log := [], {}, map[], storeOpen, [];
    }

    /** The store connects or drops. */
    method SetStoreOpen(b: bool)
      modifies this
      ensures storeOpen == b
      ensures users == old(users) && open == old(open) && store == old(store) && log == old(log)
    {
      storeOpen := b;
    }

    /** A new connection: a table entry with a fresh user id, no rooms and the default name. */
    method Connect(socket: SocketId, userId: Id)
      requires Valid() && FindUser(users, socket).None?
      modifies this
      ensures Valid()
      ensures users == old(users) + [User(socket, [], userId, DefaultUsername)]
      ensures open == old(open) + {socket}
      ensures store == old(store) && storeOpen == old(storeOpen) && log == old(log)
    {
      users := users + [User(socket, [], userId, DefaultUsername)];
      open := open + {socket};
    }

    method BroadcastToRoom(room: Id, msg: ServerMessage, exclude: Option<SocketId>)
      modifies this
      ensures log == old(log) + Broadcast(users, open, room, msg, exclude)
      ensures users == old(users) && open == old(open) && store == old(store) && storeOpen == old(storeOpen)
    {
      var i := 0;
      while i < |users|
        invariant 0 <= i <= |users|
        invariant users == old(users) && open == old(open) && store == old(store) && storeOpen == old(storeOpen)
        invariant log == old(log) + Broadcast(users[..i], open, room, msg, exclude)
      {
        var u := users[i];
        assert users[..i + 1][..i] == users[..i];
        if room in u.rooms && u.socket in open && exclude != Some(u.socket) {
          log := log + [Deliver(u.socket, msg)];
        }
        i := i + 1;
      }
      assert users[..i] == users;
    }

    /** `join_room`: record the name and the room, tell the room on a first join, and answer with the room's list. */
    method JoinRoom(socket: SocketId, room: Id, username: string, fault: bool)
      requires Valid()
      modifies this
      ensures Valid()
      ensures match FindUser(old(users), socket)
        case None => users == old(users) && log == old(log) + [Deliver(socket, RoomJoined(room, JoinedShapes(store, storeOpen, fault, room)))]
        case Some(i) =>
          users == old(users)[i := Joined(old(users)[i], room, username)] &&
          log == old(log) +
            (if room in old(users)[i].rooms then []
             else Broadcast(users, open, room, UserJoined(room, users[i].userId, users[i].username), Some(socket))) +
            [Deliver(socket, RoomJoined(room, JoinedShapes(store, storeOpen, fault, room)))]
      ensures open == old(open) && store == old(store) && storeOpen == old(storeOpen)
    {
      var found := FindUser(users, socket);
      if found.Some? {
        var i := found.value;
        var u := users[i];
        var joined := Joined(u, room, username);
        JoinAtMostOnce(u, room, username);
        users := users[i := joined];
        if room !in u.rooms {
          BroadcastToRoom(room, UserJoined(room, joined.userId, joined.username), Some(socket));
        }
      }
      log := log + [Deliver(socket, RoomJoined(room, JoinedShapes(store, storeOpen, fault, room)))];
    }

    /** Write the room's new list when the store is up and the call succeeds, then broadcast the event to the whole room. */
    method PersistThenBroadcast(room: Id, newList: seq<Shape>, fault: bool, msg: ServerMessage)
      modifies this
      ensures store == if storeOpen && !fault then old(store)[room := newList] else old(store)
      ensures log == old(log) + (if storeOpen && !fault then [Write(room, newList)] else []) + Broadcast(users, open, room, msg, None)
      ensures users == old(users) && open == old(open) && storeOpen == old(storeOpen)
    {
      if storeOpen && !fault {
        store := store[room := newList];
        log := log + [Write(room, newList)];
      }
      BroadcastToRoom(room, msg, None);
    }

    /** `shape_add`: appended to the persisted list with no duplicate check. */
    method ShapeAdd(room: Id, shape: Shape, fault: bool)
      modifies this
      ensures store == if storeOpen && !fault then old(store)[room := Stored(old(store), room) + [shape]] else old(store)
      ensures log == old(log) + (if storeOpen && !fault then [Write(room, Stored(old(store), room) + [shape])] else []) +
                     Broadcast(users, open, room, ShapeAdded(room, shape), None)
      ensures users == old(users) && open == old(open) && storeOpen == old(storeOpen)
    {
      PersistThenBroadcast(room, Stored(store, room) + [shape], fault, ShapeAdded(room, shape));
    }

    /** `shape_update`: an upsert on the persisted list. */
    method ShapeUpdate(room: Id, shape: Shape, fault: bool)
      modifies this
      ensures store == if storeOpen && !fault then old(store)[room := Upsert(Stored(old(store), room), shape)] else old(store)
      ensures log == old(log) + (if storeOpen && !fault then [Write(room, Upsert(Stored(old(store), room), shape))] else []) +
                     Broadcast(users, open, room, ShapeUpdated(room, shape), None)
      ensures users == old(users) && open == old(open) && storeOpen == old(storeOpen)
    {
      PersistThenBroadcast(room, Upsert(Stored(store, room), shape), fault, ShapeUpdated(room, shape));
    }

    /** `shape_remove`: every entry with the id is dropped. */
    method ShapeRemove(room: Id, shapeId: Id, fault: bool)
      modifies this
      ensures store == if storeOpen && !fault then old(store)[room := Scene.WithoutId(Stored(old(store), room), shapeId)] else old(store)
      ensures log == old(log) + (if storeOpen && !fault then [Write(room, Scene.WithoutId(Stored(old(store), room), shapeId))] else []) +
                     Broadcast(users, open, room, ShapeRemoved(room, shapeId), None)
      ensures users == old(users) && open == old(open) && storeOpen == old(storeOpen)
    {
      PersistThenBroadcast(room, Scene.WithoutId(Stored(store, room), shapeId), fault, ShapeRemoved(room, shapeId));
    }

    /** `shapes_sync`: the persisted list is overwritten wholesale. */
    method ShapesSync(room: Id, shapes: seq<Shape>, fault: bool)
      modifies this
      ensures store == if storeOpen && !fault then old(store)[room := shapes] else old(store)
      ensures log == old(log) + (if storeOpen && !fault then [Write(room, shapes)] else []) +
                     Broadcast(users, open, room, ShapesSynced(room, shapes), None)
      ensures users == old(users) && open == old(open) && storeOpen == old(storeOpen)
    {
      PersistThenBroadcast(room, shapes, fault, ShapesSynced(room, shapes));
    }

    /** `cursor_move`: relayed to the whole room, sender included, only from a member of that room. */
    method CursorMove(socket: SocketId, room: Id, clientId: Id, username: string, x: real, y: real)
      modifies this
      ensures match FindUser(users, socket)
        case Some(i) =>
          log == old(log) +
            (if room in users[i].rooms
             then Broadcast(users, open, room,
                    CursorMoved(room, users[i].userId, clientId, if username != "" then username else users[i].username, x, y), None)
             else [])
        case None => log == old(log)
      ensures users == old(users) && open == old(open) && store == old(store) && storeOpen == old(storeOpen)
    {
      var found := FindUser(users, socket);
      if found.Some? && room in users[found.value].rooms {
        var u := users[found.value];
        BroadcastToRoom(room, CursorMoved(room, u.userId, clientId, if username != "" then username else u.username, x, y), None);
      }
    }

    /** A message that fails to parse is answered with an error. */
    method RejectMalformed(socket: SocketId)
      modifies this
      ensures log == old(log) + [Deliver(socket, Error(ProcessingFailed))]
      ensures users == old(users) && open == old(open) && store == old(store) && storeOpen == old(storeOpen)
    {
      log := log + [Deliver(socket, Error(ProcessingFailed))];
    }

    /** One parsed client message, dispatched on its type; `user_update` has no handler here. */
    method Handle(socket: SocketId, msg: ClientMessage, fault: bool)
      requires Valid()
      modifies this
      ensures Valid() && open == old(open) && storeOpen == old(storeOpen)
      ensures !msg.JoinRoom? ==> users == old(users)
      ensures match msg
        case ShapeAdd(room, shape) =>
          var list := Stored(old(store), room) + [shape];
          store == (if storeOpen && !fault then old(store)[room := list] else old(store)) &&
          log == old(log) + (if storeOpen && !fault then [Write(room, list)] else []) +
                 Broadcast(users, open, room, ShapeAdded(room, shape), None)
        case ShapeUpdate(room, shape) =>
          var list := Upsert(Stored(old(store), room), shape);
          store == (if storeOpen && !fault then old(store)[room := list] else old(store)) &&
          log == old(log) + (if storeOpen && !fault then [Write(room, list)] else []) +
                 Broadcast(users, open, room, ShapeUpdated(room, shape), None)
        case ShapeRemove(room, id) =>
          var list := Scene.WithoutId(Stored(old(store), room), id);
          store == (if storeOpen && !fault then old(store)[room := list] else old(store)) &&
          log == old(log) + (if storeOpen && !fault then [Write(room, list)] else []) +
                 Broadcast(users, open, room, ShapeRemoved(room, id), None)
        case ShapesSync(room, shapes) =>
          store == (if storeOpen && !fault then old(store)[room := shapes] else old(store)) &&
          log == old(log) + (if storeOpen && !fault then [Write(room, shapes)] else []) +
                 Broadcast(users, open, room, ShapesSynced(room, shapes), None)
        case CursorMove(room, x, y, username, clientId) =>
          store == old(store) &&
          (match FindUser(users, socket)
           case Some(i) =>
             log == old(log) +
               (if room in users[i].rooms
                then Broadcast(users, open, room,
                       CursorMoved(room, users[i].userId, clientId, if username != "" then username else users[i].username, x, y), None)
                else [])
           case None => log == old(log))
        case JoinRoom(room, _) =>
          store == old(store) && |log| > |old(log)| &&
          log[|log| - 1] == Deliver(socket, RoomJoined(room, JoinedShapes(old(store), storeOpen, fault, room)))
        case UserUpdate(_, _, _) => log == old(log) && store == old(store)
    {
      match msg
      case JoinRoom(room, username) => JoinRoom(socket, room, username, fault);
      case ShapeAdd(room, shape) => ShapeAdd(room, shape, fault);
      case ShapeUpdate(room, shape) => ShapeUpdate(room, shape, fault);
      case ShapeRemove(room, id) => ShapeRemove(room, id, fault);
      case ShapesSync(room, shapes) => ShapesSync(room, shapes, fault);
      case UserUpdate(_, _, _) =>
      case CursorMove(room, x, y, username, clientId) => CursorMove(socket, room, clientId, username, x, y);
    }

    /**
     * The socket closes: it is no longer open, every room it joined hears
     * `user_left`, and then its entry leaves the table.
     */
    method Close(socket: SocketId)
      requires Valid()
      modifies this
      ensures Valid()
      ensures open == old(open) - {socket}
      ensures FindUser(users, socket).None?
      ensures match FindUser(old(users), socket)
        case None => users == old(users) && log == old(log)
        case Some(i) =>
          users == old(users)[..i] + old(users)[i + 1..] &&
          log == old(log) + LeftEvents(old(users), open, old(users)[i].rooms, old(users)[i].userId)
      ensures store == old(store) && storeOpen == old(storeOpen)
    {
      open := open - {socket};
      var found := FindUser(users, socket);
      if found.None? {
        return;
      }
      var i := found.value;
      var u := users[i];
      var k := 0;
      while k < |u.rooms|
        invariant 0 <= k <= |u.rooms|
        invariant users == old(users) && open == old(open) - {socket} && store == old(store) && storeOpen == old(storeOpen)
        invariant log == old(log) + LeftEvents(users, open, u.rooms[..k], u.userId)
      {
        assert u.rooms[..k + 1][..k] == u.rooms[..k];
        BroadcastToRoom(u.rooms[k], UserLeft(u.rooms[k], u.userId), None);
        k := k + 1;
      }
      assert u.rooms[..k] == u.rooms;
      SpliceOut(users, i);
      users := users[..i] + users[i + 1..];
    }
  }

  /** The leaver gets none of the `user_left` messages of its own close: its socket is no longer open. */
  lemma LeaverNotNotified(users: seq<User>, open: set<SocketId>, rooms: seq<Id>, userId: Id, socket: SocketId)
    requires socket !in open
    ensures forall e :: e in LeftEvents(users, open, rooms, userId) ==> e.Deliver? && e.to != socket
  {
    LeftEventsMeaning(users, open, rooms, userId);
  }
}
