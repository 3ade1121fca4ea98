/**
 * The scene's value types: points, axis-aligned boxes, the optional style
 * record every shape may carry, and the tagged union of shape variants.
 */
module Shapes {

  datatype Option<T> = None | Some(value: T) {
    function GetOr(default: T): T {
      if Some? then value else default
    }
  }

  /** Shape ids, room ids, client ids and user ids are opaque strings. */
  type Id = string

  datatype Point = Point(x: real, y: real)

  /** An axis-aligned box `{x, y, w, h}`; `(x, y)` is its top-left corner. */
  datatype Box = Box(x: real, y: real, w: real, h: real)

  datatype StrokeStyle = Solid | Dashed | Dotted

  /** Sloppiness levels 0, 1 and 2. */
  datatype Sloppiness = Precise | Wavy | Rough

  datatype EdgeStyle = Sharp | Round

  /**
   * The style fields a stored shape may carry; any of them may be missing,
   * in which case renderers fall back to a default.
   */
  datatype Style = Style(
    stroke: Option<string>,
    fill: Option<string>,
    strokeWidth: Option<real>,
    opacity: Option<real>,
    strokeStyle: Option<StrokeStyle>,
    sloppiness: Option<Sloppiness>,
    edgeStyle: Option<EdgeStyle>,
    rotation: Option<real>)

  const NoStyle := Style(None, None, None, None, None, None, None, None)

  datatype FontWeight = Normal | Bold
  datatype FontSlant = Upright | Italic
  datatype TextAlign = AlignLeft | AlignCenter | AlignRight

  /** The optional typographic fields of a text shape. */
  datatype TextLayout = TextLayout(
    fontWeight: Option<FontWeight>,
    fontStyle: Option<FontSlant>,
    textAlign: Option<TextAlign>)

  const NoLayout := TextLayout(None, None, None)

  /**
   * A shape. Every variant has an `id` and a `style`; arrows may carry a
   * quadratic control point. A text shape's `(x, y)` is its baseline-left
   * corner: its box spans `y - h .. y`.
   */
  datatype Shape =
    | Rect(id: Id, x: real, y: real, w: real, h: real, style: Style)
    | Rhombus(id: Id, top: Point, bottom: Point, left: Point, right: Point, style: Style)
    | Pencil(id: Id, points: seq<Point>, style: Style)
    | Line(id: Id, startPoint: Point, endPoint: Point, style: Style)
    | Arrow(id: Id, startPoint: Point, endPoint: Point, controlPoint: Option<Point>, style: Style)
    | Circle(id: Id, cx: real, cy: real, r: real, style: Style)
    | Text(id: Id, x: real, y: real, text: string, fontSize: real, fontFamily: string,
           color: string, w: real, h: real, layout: TextLayout, style: Style)

  /** `shape.rotation ?? 0` */
  function RotationOf(s: Shape): real {
    s.style.rotation.GetOr(0.0)
  }

  function Min(a: real, b: real): (r: real)
    ensures r <= a && r <= b && (r == a || r == b)
  {
    if a <= b then a else b
  }

  function Max(a: real, b: real): (r: real)
    ensures r >= a && r >= b && (r == a || r == b)
  {
    if a >= b then a else b
  }

  function Abs(a: real): (r: real)
    ensures r >= 0.0 && (r == a || r == -a)
  {
    if a >= 0.0 then a else -a
  }
}

/** Wire messages exchanged between the browser client and the relay. */
module Wire {
  import opened Shapes

  datatype ClientMessage =
    | JoinRoom(roomId: Id, username: string)
    | ShapeAdd(roomId: Id, shape: Shape)
    | ShapeUpdate(roomId: Id, shape: Shape)
    | ShapeRemove(roomId: Id, shapeId: Id)
    | ShapesSync(roomId: Id, shapes: seq<Shape>)
    | UserUpdate(roomId: Id, username: string, clientId: Id)
    | CursorMove(roomId: Id, x: real, y: real, username: string, clientId: Id)

  datatype ServerMessage =
    | RoomJoined(roomId: Id, shapes: seq<Shape>)
    | ShapeAdded(roomId: Id, shape: Shape)
    | ShapeUpdated(roomId: Id, shape: Shape)
    | ShapeRemoved(roomId: Id, shapeId: Id)
    | ShapesSynced(roomId: Id, shapes: seq<Shape>)
    | CursorMoved(roomId: Id, userId: Id, clientId: Id, username: string, x: real, y: real)
    | UserUpdated(roomId: Id, userId: Id, clientId: Id, username: string)
    | UserJoined(roomId: Id, userId: Id, username: string)
    | UserLeft(roomId: Id, userId: Id)
    | Error(message: string)
}
