/** The stroke-capture state of the drawing canvas (client/components/CanvasBoard.tsx):
    pointer and touch handlers turn one gesture into one saved `Stroke`. */
module Canvas {
  import opened Wrappers
  import opened Types

  /** A position in viewport (client) coordinates, as a mouse event or a touch carries it. */
  datatype ClientPoint = ClientPoint(clientX: real, clientY: real)

  /** A mouse event, or a touch event with its list of active touches (never empty for
      touchstart and touchmove, the two touch events whose position is read). */
  datatype InputEvent =
    | MouseInput(at: ClientPoint)
    | TouchInput(first: ClientPoint, others: seq<ClientPoint>)

  /** The origin of the canvas's bounding rectangle in client coordinates. */
  datatype Rect = Rect(left: real, top: real)

  /** The client position an event reports: its own for a mouse event, the first touch's otherwise. */
  function ClientPosition(e: InputEvent): ClientPoint {
    match e
    case MouseInput(at) => at
    case TouchInput(first, _) => first
  }

  /** `getPos`: the event position relative to the canvas origin. */
  function GetPos(e: InputEvent, r: Rect): (p: Point)
    ensures ClientPoint(p.x + r.left, p.y + r.top) == ClientPosition(e)
  {
    var c := if e.TouchInput? then e.first else e.at;
    Point(c.clientX - r.left, c.clientY - r.top)
  }

  /** A touch and a mouse event at the same client position give the same canvas point. */
  lemma GetPosIgnoresEventKind(t: ClientPoint, others: seq<ClientPoint>, r: Rect)
    ensures GetPos(TouchInput(t, others), r) == GetPos(MouseInput(t), r)
  {
  }

  /** The colour and line width a new stroke takes from its tool. */
  datatype Style = Style(color: string, width: real)

  function DefaultStyle(t: Tool): (s: Style)
    ensures s.width > 0.0
  {
    Style(if t == Pencil then "#000000" else "#FFFFFF", if t == Eraser then 20.0 else 3.0)
  }

  /** Pencil draws black at width 3, the eraser paints white at width 20. */
  lemma ToolPolicy()
    ensures DefaultStyle(Pencil) == Style("#000000", 3.0)
    ensures DefaultStyle(Eraser) == Style("#FFFFFF", 20.0)
  {
  }

  /** The stroke `start` opens: the tool's style and the one point where the gesture began. */
  function NewStroke(t: Tool, p: Point): (s: Stroke)
    ensures s.tool == t && s.points == [p] && s.width > 0.0
    ensures Style(s.color, s.width) == DefaultStyle(t)
  {
    var style := DefaultStyle(t);
    Stroke(t, style.color, style.width, [p])
  }

  /** The three refs of the component: whether a gesture is in progress, its stroke, and the saved strokes. */
  datatype Board = Board(isDrawing: bool, current: Option<Stroke>, strokes: seq<Stroke>)

  /** A gesture is in progress exactly when there is a current stroke. */
  predicate WellFormed(b: Board) {
    b.isDrawing <==> b.current.Some?
  }

  const InitialBoard := Board(false, None, [])

  /** `start`: begin a gesture at `p`, discarding any unfinished one. */
  function StartStep(b: Board, t: Tool, p: Point): Board {
    Board(true, Some(NewStroke(t, p)), b.strokes)
  }

  /** `draw`: extend the current stroke by `p`; nothing happens when no gesture is in progress. */
  function DrawStep(b: Board, p: Point): Board
    requires WellFormed(b)
  {
    if !b.isDrawing then b
    else b.(current := Some(b.current.value.(points := b.current.value.points + [p])))
  }

  /** `stop`: save the current stroke and end the gesture; nothing happens when none is in progress. */
  function StopStep(b: Board): Board
    requires WellFormed(b)
  {
    if !b.isDrawing then b
    else Board(false, None, b.strokes + [b.current.value])
  }

  /** `clear`: forget the saved strokes. */
  function ClearStep(b: Board): Board {
    b.(strokes := [])
  }

  lemma StartBeginsGesture(b: Board, t: Tool, p: Point)
    ensures var b' := StartStep(b, t, p);
      WellFormed(b') && b'.isDrawing && b'.current == Some(NewStroke(t, p)) && b'.strokes == b.strokes
  {
  }

  /** Starting over an unfinished gesture replaces it: a later stop saves only the new stroke. */
  lemma StartDiscardsUnfinished(b: Board, t: Tool, p: Point)
    requires WellFormed(b) && b.isDrawing
    ensures StopStep(StartStep(b, t, p)).strokes == b.strokes + [NewStroke(t, p)]
  {
  }

  lemma DrawWhileIdleIsNoOp(b: Board, p: Point)
    requires WellFormed(b) && !b.isDrawing
    ensures DrawStep(b, p) == b
  {
  }

  /** Drawing appends exactly one point at the end and keeps everything else. */
  lemma DrawAppendsOnePoint(b: Board, p: Point)
    requires WellFormed(b) && b.isDrawing
    ensures var b' := DrawStep(b, p);
      && WellFormed(b') && b'.isDrawing && b'.strokes == b.strokes
      && var old_ := b.current.value; var new_ := b'.current.value;
      && new_.points[..|old_.points|] == old_.points
      && |new_.points| == |old_.points| + 1 && new_.points[|old_.points|] == p
      && new_.(points := old_.points) == old_
  {
  }

  lemma StopWhileIdleIsNoOp(b: Board)
    requires WellFormed(b) && !b.isDrawing
    ensures StopStep(b) == b
  {
  }

  /** Stopping saves the current stroke as the last saved one, clears it, and ends the gesture. */
  lemma StopSavesStroke(b: Board)
    requires WellFormed(b) && b.isDrawing
    ensures var b' := StopStep(b);
      && WellFormed(b') && !b'.isDrawing && b'.current == None
      && |b'.strokes| == |b.strokes| + 1
      && b'.strokes[..|b.strokes|] == b.strokes && b'.strokes[|b.strokes|] == b.current.value
  {
  }

  /** Clearing keeps an unfinished gesture, so a later stop still saves it. */
  lemma ClearKeepsGesture(b: Board)
    requires WellFormed(b) && b.isDrawing
    ensures var c := ClearStep(b);
      WellFormed(c) && c.current == b.current && StopStep(c).strokes == [b.current.value]
  {
  }

  /** A handler invocation, positions already converted by `getPos`. */
  datatype CanvasEvent = Down(tool: Tool, at: Point) | Move(at: Point) | Up | ClearRequest

  function Apply(b: Board, ev: CanvasEvent): (b': Board)
    requires WellFormed(b)
    ensures WellFormed(b')
  {
    match ev
    case Down(t, p) => StartStep(b, t, p)
    case Move(p) => DrawStep(b, p)
    case Up => StopStep(b)
    case ClearRequest => ClearStep(b)
  }

  /** The board after the handlers run for `evs` in order. */
  function Replay(b: Board, evs: seq<CanvasEvent>): (b': Board)
    requires WellFormed(b)
    ensures WellFormed(b')
    decreases |evs|
  {
    if evs == [] then b else Replay(Apply(b, evs[0]), evs[1..])
  }

  function Moves(ps: seq<Point>): (evs: seq<CanvasEvent>)
    ensures |evs| == |ps|
    ensures forall i :: 0 <= i < |ps| ==> evs[i] == Move(ps[i])
  {
    if ps == [] then [] else [Move(ps[0])] + Moves(ps[1..])
  }

  lemma {:induction false} ReplayConcat(b: Board, xs: seq<CanvasEvent>, ys: seq<CanvasEvent>)
    requires WellFormed(b)
    ensures Replay(b, xs + ys) == Replay(Replay(b, xs), ys)
    decreases |xs|
  {
    if xs != [] {
      assert (xs + ys)[1..] == xs[1..] + ys;
      ReplayConcat(Apply(b, xs[0]), xs[1..], ys);
    } else {
      assert xs + ys == ys;
    }
  }

  /** During a gesture, moves append their positions to the current stroke in order. */
  lemma {:induction false} ReplayMoves(b: Board, ps: seq<Point>)
    requires WellFormed(b) && b.isDrawing
    ensures Replay(b, Moves(ps)) ==
      b.(current := Some(b.current.value.(points := b.current.value.points + ps)))
    decreases |ps|
  {
    if ps != [] {
      var b1 := DrawStep(b, ps[0]);
      assert Moves(ps)[1..] == Moves(ps[1..]);
      ReplayMoves(b1, ps[1..]);
      assert b.current.value.points + [ps[0]] + ps[1..] == b.current.value.points + ps;
    } else {
      assert b.current.value.points + ps == b.current.value.points;
    }
  }

  /** start(p0), draw(p1..pk), stop saves one stroke whose points are exactly p0, p1, ..., pk. */
  lemma GestureRecordsPoints(b: Board, t: Tool, p0: Point, ps: seq<Point>)
    requires WellFormed(b)
    ensures Replay(b, [Down(t, p0)] + Moves(ps) + [Up]) ==
      Board(false, None, b.strokes + [NewStroke(t, p0).(points := [p0] + ps)])
  {
    var started := StartStep(b, t, p0);
    ReplayConcat(b, [Down(t, p0)] + Moves(ps), [Up]);
    ReplayConcat(b, [Down(t, p0)], Moves(ps));
    ReplayMoves(started, ps);
  }

  /** A DOM event on the canvas, before any listener has seen it. */
  datatype DomEvent = PointerDown(at: Point) | PointerMove(at: Point) | PointerUp | ClearCanvasEvent

  /** The handler call that a listener set made while `tool` was selected makes for `ev`. */
  function ListenerCall(tool: Tool, ev: DomEvent): CanvasEvent {
    match ev
    case PointerDown(p) => Down(tool, p)
    case PointerMove(p) => Move(p)
    case PointerUp => Up
    case ClearCanvasEvent => ClearRequest
  }

  /** Delivers `ev` to every attached listener set, oldest first; `sets` lists the tool each set
      closed over. Each run of the effect attaches a fresh set of pointer listeners and its cleanup
      detaches only the clear-canvas listener, so a clear reaches the newest set alone. */
  function Dispatch(b: Board, sets: seq<Tool>, ev: DomEvent): (b': Board)
    requires WellFormed(b)
    ensures WellFormed(b')
    decreases |sets|
  {
    if sets == [] then b
    else if ev.ClearCanvasEvent? then ClearStep(b)
    else Dispatch(Apply(b, ListenerCall(sets[0], ev)), sets[1..], ev)
  }

  /** The board after the DOM delivers `evs` in order to the listener sets `sets`. */
  function DomReplay(b: Board, sets: seq<Tool>, evs: seq<DomEvent>): (b': Board)
    requires WellFormed(b)
    ensures WellFormed(b')
    decreases |evs|
  {
    if evs == [] then b else DomReplay(Dispatch(b, sets, evs[0]), sets, evs[1..])
  }

  function PointerMoves(ps: seq<Point>): (evs: seq<DomEvent>)
    ensures |evs| == |ps|
    ensures forall i :: 0 <= i < |ps| ==> evs[i] == PointerMove(ps[i])
  {
    if ps == [] then [] else [PointerMove(ps[0])] + PointerMoves(ps[1..])
  }

  /** `n` copies of `p`. */
  function Repeat(p: Point, n: nat): (r: seq<Point>)
    ensures |r| == n
    ensures forall i :: 0 <= i < n ==> r[i] == p
  {
    if n == 0 then [] else [p] + Repeat(p, n - 1)
  }

  /** Each point of `ps` repeated `n` times, in order. */
  function Stutter(ps: seq<Point>, n: nat): (r: seq<Point>)
    ensures |r| == |ps| * n
  {
    if ps == [] then [] else Repeat(ps[0], n) + Stutter(ps[1..], n)
  }

  lemma {:induction false} DomReplayConcat(b: Board, sets: seq<Tool>, xs: seq<DomEvent>, ys: seq<DomEvent>)
    requires WellFormed(b)
    ensures DomReplay(b, sets, xs + ys) == DomReplay(DomReplay(b, sets, xs), sets, ys)
    decreases |xs|
  {
    if xs != [] {
      assert (xs + ys)[1..] == xs[1..] + ys;
      DomReplayConcat(Dispatch(b, sets, xs[0]), sets, xs[1..], ys);
    } else {
      assert xs + ys == ys;
    }
  }

  /** A pointer-down reaches every set; the newest set's `start` runs last and wins. */
  lemma {:induction false} DispatchDown(b: Board, sets: seq<Tool>, p: Point)
    requires WellFormed(b) && sets != []
    ensures Dispatch(b, sets, PointerDown(p)) == StartStep(b, sets[|sets| - 1], p)
    decreases |sets|
  {
    if |sets| > 1 {
      DispatchDown(StartStep(b, sets[0], p), sets[1..], p);
    }
  }

  /** During a gesture, a pointer-move appends its position once per attached set. */
  lemma {:induction false} DispatchMove(b: Board, sets: seq<Tool>, p: Point)
    requires WellFormed(b) && b.isDrawing
    ensures Dispatch(b, sets, PointerMove(p)) ==
      b.(current := Some(b.current.value.(points := b.current.value.points + Repeat(p, |sets|))))
    decreases |sets|
  {
    var pts := b.current.value.points;
    if sets == [] {
      assert pts + Repeat(p, 0) == pts;
    } else {
      DispatchMove(DrawStep(b, p), sets[1..], p);
      assert pts + [p] + Repeat(p, |sets| - 1) == pts + Repeat(p, |sets|);
    }
  }

  /** A pointer-up saves the stroke once: the first set's `stop` ends the gesture, the others find nothing to do. */
  lemma {:induction false} DispatchUp(b: Board, sets: seq<Tool>)
    requires WellFormed(b) && sets != []
    ensures Dispatch(b, sets, PointerUp) == StopStep(b)
    decreases |sets|
  {
    if |sets| > 1 {
      DispatchUp(StopStep(b), sets[1..]);
    }
  }

  lemma {:induction false} DomReplayMoves(b: Board, sets: seq<Tool>, ps: seq<Point>)
    requires WellFormed(b) && b.isDrawing
    ensures DomReplay(b, sets, PointerMoves(ps)) ==
      b.(current := Some(b.current.value.(points := b.current.value.points + Stutter(ps, |sets|))))
    decreases |ps|
  {
    var pts := b.current.value.points;
    if ps == [] {
      assert pts + Stutter(ps, |sets|) == pts;
    } else {
      DispatchMove(b, sets, ps[0]);
      var b1 := Dispatch(b, sets, PointerMove(ps[0]));
      assert PointerMoves(ps)[1..] == PointerMoves(ps[1..]);
      DomReplayMoves(b1, sets, ps[1..]);
      assert pts + Repeat(ps[0], |sets|) + Stutter(ps[1..], |sets|) == pts + Stutter(ps, |sets|);
    }
  }

  /** As written: with `|sets|` listener sets attached, a gesture saves one stroke with the newest
      set's tool, in which every point after the first appears `|sets|` times. */
  lemma PiledListenersGesture(b: Board, sets: seq<Tool>, p0: Point, ps: seq<Point>)
    requires WellFormed(b) && sets != []
    ensures DomReplay(b, sets, [PointerDown(p0)] + PointerMoves(ps) + [PointerUp]) ==
      Board(false, None, b.strokes + [NewStroke(sets[|sets| - 1], p0).(points := [p0] + Stutter(ps, |sets|))])
  {
    var down := [PointerDown(p0)];
    DomReplayConcat(b, sets, down + PointerMoves(ps), [PointerUp]);
    DomReplayConcat(b, sets, down, PointerMoves(ps));
    DispatchDown(b, sets, p0);
    var started := StartStep(b, sets[|sets| - 1], p0);
    DomReplayMoves(started, sets, ps);
    var drawn := DomReplay(started, sets, PointerMoves(ps));
    DispatchUp(drawn, sets);
  }

  /** As written: after one switch from pencil to eraser, start at p0, one move to p1 and stop save
      the points p0, p1, p1 instead of p0, p1. */
  lemma ToolSwitchDuplicatesPoints(b: Board, p0: Point, p1: Point)
    requires WellFormed(b)
    ensures var saved := DomReplay(b, [Pencil, Eraser], [PointerDown(p0), PointerMove(p1), PointerUp]).strokes;
      && |saved| == |b.strokes| + 1
      && saved[|b.strokes|].points == [p0, p1, p1]
      && saved[|b.strokes|].points != [p0, p1]
  {
    PiledListenersGesture(b, [Pencil, Eraser], p0, [p1]);
    assert [PointerDown(p0)] + PointerMoves([p1]) + [PointerUp] == [PointerDown(p0), PointerMove(p1), PointerUp];
    assert Stutter([p1], 2) == [p1, p1];
  }

  /** Corrected: with one listener set, the set of the tool now selected, a DOM event makes exactly
      one handler call, so the gesture saves exactly p0, p1, ..., pk. */
  lemma SingleListenerGesture(b: Board, t: Tool, p0: Point, ps: seq<Point>)
    requires WellFormed(b)
    ensures DomReplay(b, [t], [PointerDown(p0)] + PointerMoves(ps) + [PointerUp]) ==
      Board(false, None, b.strokes + [NewStroke(t, p0).(points := [p0] + ps)])
  {
    PiledListenersGesture(b, [t], p0, ps);
    StutterOnce(ps);
  }

  lemma {:induction false} StutterOnce(ps: seq<Point>)
    ensures Stutter(ps, 1) == ps
    decreases |ps|
  {
    if ps != [] {
      StutterOnce(ps[1..]);
      assert Repeat(ps[0], 1) == [ps[0]];
      assert [ps[0]] + ps[1..] == ps;
    }
  }

  /** The component's refs, updated in place by its event handlers. */
  class CanvasBoard {
    var isDrawing: bool
    var currentStroke: Option<Stroke>
    var strokes: seq<Stroke>

    ghost function State(): Board
      reads this
    {
      Board(isDrawing, currentStroke, strokes)
    }

    ghost predicate Valid()
      reads this
    {
      WellFormed(State())
    }

    constructor ()
      ensures Valid() && State() == InitialBoard
    {
      isDrawing := false;
      currentStroke := None;
      strokes := [];
    }

    /** mousedown / touchstart with the tool currently selected. */
    method Start(tool: Tool, e: InputEvent, r: Rect)
      requires Valid()
      modifies this
      ensures Valid() && State() == StartStep(old(State()), tool, GetPos(e, r))
    {
      isDrawing := true;
      var p := GetPos(e, r);
      var style := DefaultStyle(tool);
      currentStroke := Some(Stroke(tool, style.color, style.width, [p]));
    }

    /** mousemove / touchmove. */
    method Draw(e: InputEvent, r: Rect)
      requires Valid()
      modifies this
      ensures Valid() && State() == DrawStep(old(State()), GetPos(e, r))
    {
      if !isDrawing {
        return;
      }
      var p := GetPos(e, r);
      var stroke := currentStroke.value;
      currentStroke := Some(stroke.(points := stroke.points + [p]));
    }

    /** mouseup / mouseleave / touchend. */
    method Stop()
      requires Valid()
      modifies this
      ensures Valid() && State() == StopStep(old(State()))
    {
      if !isDrawing {
        return;
      }
      isDrawing := false;
      strokes := strokes + [currentStroke.value];
      currentStroke := None;
    }

    /** The window-level "clear-canvas" event. */
    method Clear()
      requires Valid()
      modifies this
      ensures Valid() && State() == ClearStep(old(State()))
    {
      strokes := [];
    }
  }
}
