/** The drawing data shared by the client and the wire protocol (client/lib/types.ts). */
module Types {
  import opened Wrappers

  /** The two drawing tools; on the wire they are the strings "pencil" and "eraser". */
  datatype Tool = Pencil | Eraser

  function ToolName(t: Tool): (s: string)
    ensures s == "pencil" || s == "eraser"
  {
    match t
    case Pencil => "pencil"
    case Eraser => "eraser"
  }

  /** Reads a tool name as it appears on the wire; any other string is not a tool. */
  function ParseTool(s: string): (r: Option<Tool>)
    ensures r.Some? <==> s == "pencil" || s == "eraser"
  {
    if s == "pencil" then Some(Pencil)
    else if s == "eraser" then Some(Eraser)
    else None
  }

  lemma ToolNameRoundTrip(t: Tool)
    ensures ParseTool(ToolName(t)) == Some(t)
  {
  }

  lemma ParseToolRoundTrip(s: string)
    requires ParseTool(s).Some?
    ensures ToolName(ParseTool(s).value) == s
  {
  }

  /** A canvas-local position. JavaScript numbers are modelled as reals. */
  datatype Point = Point(x: real, y: real)

  /** One gesture: its tool, colour, line width and points in the order they were captured. */
  datatype Stroke = Stroke(tool: Tool, color: string, width: real, points: seq<Point>)

  /** The `state` payload of a ROOM_STATE message as the client types it. */
  datatype RoomStateBody = RoomStateBody(strokes: seq<Stroke>)

  /** The three message shapes of the room channel, told apart by their `type` tag. */
  datatype WSMessage =
    | DrawStroke(roomId: string, playerId: string, stroke: Stroke)
    | ClearCanvas(roomId: string, playerId: string)
    | RoomState(state: RoomStateBody)

  /** The value of the `type` field that discriminates the union. */
  function MessageType(m: WSMessage): (tag: string)
    ensures tag == "DRAW_STROKE" || tag == "CLEAR_CANVAS" || tag == "ROOM_STATE"
  {
    match m
    case DrawStroke(_, _, _) => "DRAW_STROKE"
    case ClearCanvas(_, _) => "CLEAR_CANVAS"
    case RoomState(_) => "ROOM_STATE"
  }

  /** Two messages carry the same tag exactly when they are the same variant. */
  lemma MessageTypeDiscriminates(a: WSMessage, b: WSMessage)
    ensures MessageType(a) == MessageType(b) <==>
      (a.DrawStroke? && b.DrawStroke?) || (a.ClearCanvas? && b.ClearCanvas?) || (a.RoomState? && b.RoomState?)
  {
  }

  /** The (room, player) pair a message is addressed from; ROOM_STATE carries none. */
  function Sender(m: WSMessage): (r: Option<(string, string)>)
    ensures r.Some? <==> !m.RoomState?
    ensures r.Some? ==> r.value == (m.roomId, m.playerId)
  {
    match m
    case DrawStroke(room, player, _) => Some((room, player))
    case ClearCanvas(room, player) => Some((room, player))
    case RoomState(_) => None
  }
}
