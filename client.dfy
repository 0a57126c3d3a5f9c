/** The whiteboard client, `PizarraColaborativa`: the stroke-capture state
    machine driven by pointer events, the reconnection counter driven by
    socket events, and the replay of lines received from the server. The
    socket's `emit` is an outbox of emitted messages, and the 2D context is
    its stroke style, its line width and the list of paint operations
    issued on it. */
module Client {
  import opened Payload

  const MAX_RECONNECTION_ATTEMPTS: nat := 10

  /** One captured point: canvas coordinates and the style in force. */
  datatype Point = Point(x: real, y: real, color: string, width: real)

  function PointValue(p: Point): Value {
    Obj(map["x" := Num(p.x), "y" := Num(p.y), "color" := Str(p.color), "width" := Num(p.width)])
  }

  /** A message the client emits. */
  datatype ClientEmit =
    | DrawEmit(points: seq<Point>, color: string, width: real)
    | ClearCanvasEmit
  {
    /** The event name on the wire. */
    function Name(): string {
      if DrawEmit? then "draw" else "clear-canvas"
    }

    /** The payload on the wire (`clear-canvas` carries none). */
    function Wire(): Value {
      match this
      case DrawEmit(points, color, width) =>
        Obj(map["points" := Arr(seq(|points|, i requires 0 <= i < |points| => PointValue(points[i]))),
                "color" := Str(color),
                "width" := Num(width)])
      case ClearCanvasEmit => Undefined
    }
  }

  /** A vertex handed to `moveTo` or `lineTo`. */
  datatype Vertex = Vertex(x: Value, y: Value)

  /** A paint operation: a white fill of the whole canvas, or a stroked path
      with the style and width the context held at `stroke()`. */
  datatype CanvasOp = Fill | Stroke(style: Value, width: Value, path: seq<Vertex>)

  /** What `drawRemoteLine` does with a line: returns early, throws a
      TypeError (after restyling the context, or before), or strokes a path. */
  datatype Outcome = Skipped | Thrown(restyled: bool) | Drawn(op: CanvasOp)

  /** Values with a `length` that indexing walks: arrays and strings. The own
      `length` and numeric keys of a plain object are not consulted. */
  predicate HasLength(v: Value) {
    v.Arr? || v.Str?
  }

  function Len(v: Value): nat {
    match v
    case Arr(items) => |items|
    case Str(s) => |s|
    case _ => 0
  }

  /** `v[i]` */
  function Element(v: Value, i: nat): Value {
    match v
    case Arr(items) => if i < |items| then items[i] else Undefined
    case Str(s) => if i < |s| then Str([s[i]]) else Undefined
    case _ => Undefined
  }

  /** `(p.x, p.y)` */
  function VertexOf(p: Value): Vertex
    requires !Nullish(p)
  {
    Vertex(Prop(p, "x"), Prop(p, "y"))
  }

  /** The vertices of the first `n` entries of `points`. */
  function PathOf(points: Value, n: nat): seq<Vertex>
    requires forall k :: 0 <= k < n ==> !Nullish(Element(points, k))
  {
    if n == 0 then [] else PathOf(points, n - 1) + [VertexOf(Element(points, n - 1))]
  }

  predicate HasNullishEntry(points: Value) {
    exists k :: 0 <= k < Len(points) && Nullish(Element(points, k))
  }

  /** The effect of `drawRemoteLine(lineData)`. Reading `.points` of a
      nullish line throws; a falsy `points`, or one whose length is below 2,
      draws nothing; otherwise the style is set and the path begins at
      `points[0]`, which throws when that entry (or any later one) is
      nullish, or when `points` has no entries to index. */
  function DrawOutcome(lineData: Value): Outcome {
    if Nullish(lineData) then Thrown(false)
    else
      var points := Prop(lineData, "points");
      if !Truthy(points) || (HasLength(points) && Len(points) < 2) then Skipped
      else if !HasLength(points) || HasNullishEntry(points) then Thrown(true)
      else Drawn(Stroke(Prop(lineData, "color"), Prop(lineData, "width"), PathOf(points, Len(points))))
  }

  function Painted(o: Outcome): seq<CanvasOp> {
    if o.Drawn? then [o.op] else []
  }

  /** The paths `lines.forEach(drawRemoteLine)` strokes: in order, up to the
      first line that throws, which ends the loop. */
  function Replay(lines: seq<Value>): seq<CanvasOp> {
    if lines == [] then []
    else
      var o := DrawOutcome(lines[0]);
      if o.Thrown? then [] else Painted(o) + Replay(lines[1..])
  }

  predicate AnyThrown(lines: seq<Value>) {
    exists k :: 0 <= k < |lines| && DrawOutcome(lines[k]).Thrown?
  }

  /** The paths painted when the same lines arrive one `draw` event at a
      time: each handler run is separate, so a line that throws does not
      stop the ones after it. */
  function LivePainted(lines: seq<Value>): seq<CanvasOp> {
    if lines == [] then [] else Painted(DrawOutcome(lines[0])) + LivePainted(lines[1..])
  }

  /** When no line throws, redrawing the history paints what a client that
      received every line live painted. */
  lemma {:induction false} ReplayMatchesLive(lines: seq<Value>)
    requires !AnyThrown(lines)
    ensures Replay(lines) == LivePainted(lines)
    decreases |lines|
  {
    if lines != [] {
      assert !DrawOutcome(lines[0]).Thrown?;
      assert !AnyThrown(lines[1..]) by {
        forall k | 0 <= k < |lines[1..]| ensures !DrawOutcome(lines[1..][k]).Thrown? {
          assert lines[1..][k] == lines[k + 1];
        }
      }
      ReplayMatchesLive(lines[1..]);
    }
  }

  /** The event names the client listens for. */
  const LISTENED: set<string> :=
    {"connect", "disconnect", "connect_error", "reconnect", "canvas-state", "draw", "canvas-cleared", "users-update"}

  /** Redrawing one more line, when none of the earlier ones throws, paints
      what that line paints after what the earlier lines painted (nothing
      more when it throws). */
  lemma {:induction false} ReplayPrefixExtends(lines: seq<Value>, i: nat)
    requires i < |lines|
    requires forall k :: 0 <= k < i ==> !DrawOutcome(lines[k]).Thrown?
    ensures Replay(lines[..i + 1]) == Replay(lines[..i]) + Painted(DrawOutcome(lines[i]))
    decreases i
  {
    if i == 0 {
      assert lines[..1] == [lines[0]];
      assert [lines[0]][1..] == [];
    } else {
      var tail := lines[1..];
      assert !DrawOutcome(lines[0]).Thrown?;
      ReplayPrefixExtends(tail, i - 1);
      assert lines[..i + 1][1..] == tail[..i];
      assert lines[..i][1..] == tail[..i - 1];
    }
  }

  /** A line that throws ends the redraw: when none of the lines before it
      throws, the whole redraw paints what those earlier lines paint. */
  lemma {:induction false} ReplayEndsAt(lines: seq<Value>, i: nat)
    requires i < |lines|
    requires forall k :: 0 <= k < i ==> !DrawOutcome(lines[k]).Thrown?
    requires DrawOutcome(lines[i]).Thrown?
    ensures Replay(lines) == Replay(lines[..i])
    decreases i
  {
    if i > 0 {
      assert !DrawOutcome(lines[0]).Thrown?;
      ReplayEndsAt(lines[1..], i - 1);
      assert lines[..i][1..] == lines[1..][..i - 1];
    }
  }

  /** The `k`-th vertex of a path is that of the `k`-th entry. */
  lemma {:induction false} PathOfAt(points: Value, n: nat, k: nat)
    requires forall j :: 0 <= j < n ==> !Nullish(Element(points, j))
    requires k < n
    ensures |PathOf(points, n)| == n && PathOf(points, n)[k] == VertexOf(Element(points, k))
  {
    PathOfLength(points, n - 1);
    if k < n - 1 {
      PathOfAt(points, n - 1, k);
    }
  }

  lemma {:induction false} PathOfLength(points: Value, n: nat)
    requires forall j :: 0 <= j < n ==> !Nullish(Element(points, j))
    ensures |PathOf(points, n)| == n
  {
    if n > 0 {
      PathOfLength(points, n - 1);
    }
  }

  /** The client object's state that the model keeps. */
  class Whiteboard {
    /** `this.socket?.connected`. */
    var connected: bool
    var isDrawing: bool
    var lastX: real
    var lastY: real
    var currentColor: string
    var brushSize: real
    var currentLine: seq<Point>
    var reconnectionAttempts: nat
    /** Every `socket.emit`, in order. */
    var outbox: seq<ClientEmit>
    /** The 2D context: `strokeStyle`, `lineWidth`, and what was painted. */
    var strokeStyle: Value
    var lineWidth: Value
    var ops: seq<CanvasOp>

    /** Outside a stroke nothing is captured; inside one the last captured
        point is the pen position; every emitted line has at least two
        points. */
    ghost predicate Valid()
      reads this
    {
      && (!isDrawing ==> currentLine == [])
      && (isDrawing ==>
            |currentLine| >= 1
            && currentLine[|currentLine| - 1].x == lastX
            && currentLine[|currentLine| - 1].y == lastY)
      && forall k :: 0 <= k < |outbox| && outbox[k].DrawEmit? ==> |outbox[k].points| >= 2
    }

    /** The constructor with `setupCanvas`: red pen of size 5, white canvas,
        no socket connected yet. */
    constructor ()
      ensures Valid()
      ensures !connected && !isDrawing && lastX == 0.0 && lastY == 0.0
      ensures currentColor == "#ff0000" && brushSize == 5.0
      ensures currentLine == [] && reconnectionAttempts == 0 && outbox == []
      ensures strokeStyle == Str("#ff0000") && lineWidth == Num(5.0) && ops == [Fill]
    {
      connected, isDrawing := false, false;
      lastX, lastY := 0.0, 0.0;
      currentColor, brushSize := "#ff0000", 5.0;
      currentLine, reconnectionAttempts, outbox := [], 0, [];
      strokeStyle, lineWidth := Str("#ff0000"), Num(5.0);
      ops := [Fill];
    }

    /** The socket's `connect` event resets the attempt counter. */
    method OnConnect()
      requires Valid()
      modifies this`connected, this`reconnectionAttempts
      ensures Valid()
      ensures connected && reconnectionAttempts == 0
    {
      connected := true;
      reconnectionAttempts := 0;
    }

    /** The socket's `disconnect` event. */
    method OnDisconnect()
      requires Valid()
      modifies this`connected
      ensures Valid()
      ensures !connected
    {
      connected := false;
    }

    /** The socket's `connect_error` event counts one more attempt; the
        result says whether the count is still within the maximum (which
        selects the message shown). */
    method OnConnectError() returns (withinLimit: bool)
      requires Valid()
      modifies this`reconnectionAttempts
      ensures Valid()
      ensures reconnectionAttempts == old(reconnectionAttempts) + 1
      ensures withinLimit <==> reconnectionAttempts <= MAX_RECONNECTION_ATTEMPTS
    {
      reconnectionAttempts := reconnectionAttempts + 1;
      withinLimit := reconnectionAttempts <= MAX_RECONNECTION_ATTEMPTS;
    }

    /** `startDrawing` at canvas point (x, y). */
    method StartDrawing(x: real, y: real)
      requires Valid()
      modifies this`isDrawing, this`lastX, this`lastY, this`currentLine
      ensures Valid()
      ensures !connected ==>
        isDrawing == old(isDrawing) && currentLine == old(currentLine)
        && lastX == old(lastX) && lastY == old(lastY)
      ensures connected ==>
        isDrawing && lastX == x && lastY == y
        && currentLine == [Point(x, y, currentColor, brushSize)]
    {
      if !connected {
        return;
      }
      isDrawing := true;
      lastX, lastY := x, y;
      currentLine := [Point(x, y, currentColor, brushSize)];
    }

    /** `draw` at canvas point (x, y): paint the segment from the pen
        position and capture the point. */
    method Draw(x: real, y: real)
      requires Valid()
      modifies this`lastX, this`lastY, this`currentLine, this`ops
      ensures Valid()
      ensures !(isDrawing && connected) ==>
        currentLine == old(currentLine) && lastX == old(lastX) && lastY == old(lastY) && ops == old(ops)
      ensures isDrawing && connected ==>
        && currentLine == old(currentLine) + [Point(x, y, currentColor, brushSize)]
        && lastX == x && lastY == y
        && ops == old(ops) + [Stroke(strokeStyle, lineWidth, [Vertex(Num(old(lastX)), Num(old(lastY))), Vertex(Num(x), Num(y))])]
    {
      if !isDrawing || !connected {
        return;
      }
      ops := ops + [Stroke(strokeStyle, lineWidth, [Vertex(Num(lastX), Num(lastY)), Vertex(Num(x), Num(y))])];
      lastX, lastY := x, y;
      currentLine := currentLine + [Point(x, y, currentColor, brushSize)];
    }

    /** `handleTouchMove`: `draw` is handed the `Touch` object itself, which
        has no `preventDefault`, so while drawing and connected the call
        throws before painting or capturing anything; otherwise `draw`
        returns at its guard. Either way nothing changes. The result says
        whether the handler returned normally. (`handleTouchStart` works:
        `startDrawing` only reads the coordinates, so it is `StartDrawing`.) */
    method HandleTouchMove() returns (ok: bool)
      requires Valid()
      ensures ok <==> !(isDrawing && connected)
    {
      ok := !isDrawing || !connected;
    }

    /** A touch gesture: `touchstart` at (x, y), `moves` touch moves, then
        `touchend`, which is bound to `stopDrawing`. However long the
        gesture, the stroke keeps at most the point it started with, so
        nothing is emitted. */
    method TouchStroke(x: real, y: real, moves: nat)
      requires Valid()
      modifies this`isDrawing, this`lastX, this`lastY, this`currentLine, this`outbox
      ensures Valid()
      ensures !isDrawing && currentLine == [] && outbox == old(outbox) && ops == old(ops)
    {
      StartDrawing(x, y);
      ghost var captured := currentLine;
      assert !connected || |captured| == 1;
      for i := 0 to moves
        invariant Valid() && currentLine == captured && outbox == old(outbox)
      {
        var _ := HandleTouchMove();
      }
      StopDrawing();
    }

    /** `stopDrawing`: end the stroke, emitting it as a `draw` when it has
        more than one point and the socket is connected. */
    method StopDrawing()
      requires Valid()
      modifies this`isDrawing, this`currentLine, this`outbox
      ensures Valid()
      ensures !old(isDrawing) ==>
        !isDrawing && currentLine == old(currentLine) && outbox == old(outbox)
      ensures old(isDrawing) ==>
        && !isDrawing && currentLine == []
        && outbox == old(outbox) +
             (if |old(currentLine)| > 1 && connected
              then [DrawEmit(old(currentLine), currentColor, brushSize)] else [])
    {
      if !isDrawing {
        return;
      }
      isDrawing := false;
      if |currentLine| > 1 && connected {
        outbox := outbox + [DrawEmit(currentLine, currentColor, brushSize)];
      }
      currentLine := [];
    }

    /** `handleColorChange` with the picked color. */
    method HandleColorChange(color: string)
      requires Valid()
      modifies this`currentColor, this`strokeStyle
      ensures Valid()
      ensures currentColor == color && strokeStyle == Str(color)
    {
      currentColor := color;
      strokeStyle := Str(currentColor);
    }

    /** `handleBrushSizeChange` with the size already parsed. */
    method HandleBrushSizeChange(size: real)
      requires Valid()
      modifies this`brushSize, this`lineWidth
      ensures Valid()
      ensures brushSize == size && lineWidth == Num(size)
    {
      brushSize := size;
      lineWidth := Num(brushSize);
    }

    /** `clearLocalCanvas`, also the handler of `canvas-cleared`. */
    method ClearLocalCanvas()
      requires Valid()
      modifies this`ops
      ensures Valid()
      ensures ops == old(ops) + [Fill]
    {
      ops := ops + [Fill];
    }

    /** `handleClearCanvas`, with the user's answer to the confirmation. */
    method HandleClearCanvas(confirmed: bool)
      requires Valid()
      modifies this`ops, this`outbox
      ensures Valid()
      ensures connected && confirmed ==>
        ops == old(ops) + [Fill] && outbox == old(outbox) + [ClearCanvasEmit]
      ensures !(connected && confirmed) ==> ops == old(ops) && outbox == old(outbox)
    {
      if !connected {
        return;
      }
      if confirmed {
        ClearLocalCanvas();
        outbox := outbox + [ClearCanvasEmit];
      }
    }

    /** `drawRemoteLine`, also the handler of a relayed `draw`. It returns
        false when JavaScript would throw. The context's style and width are
        put back after a stroked path, but not when an entry throws. */
    method DrawRemoteLine(lineData: Value) returns (ok: bool)
      requires Valid()
      modifies this`strokeStyle, this`lineWidth, this`ops
      ensures Valid()
      ensures ok <==> !DrawOutcome(lineData).Thrown?
      ensures match DrawOutcome(lineData)
        case Skipped =>
          ops == old(ops) && strokeStyle == old(strokeStyle) && lineWidth == old(lineWidth)
        case Drawn(op) =>
          ops == old(ops) + [op] && strokeStyle == old(strokeStyle) && lineWidth == old(lineWidth)
        case Thrown(restyled) =>
          && ops == old(ops)
          && (!restyled ==> strokeStyle == old(strokeStyle) && lineWidth == old(lineWidth))
          && (restyled ==>
                !Nullish(lineData) && strokeStyle == Prop(lineData, "color") && lineWidth == Prop(lineData, "width"))
    {
      if Nullish(lineData) {
        return false;
      }
      var points := Prop(lineData, "points");
      if !Truthy(points) || (HasLength(points) && Len(points) < 2) {
        return true;
      }
      var originalColor, originalWidth := strokeStyle, lineWidth;
      strokeStyle := Prop(lineData, "color");
      lineWidth := Prop(lineData, "width");
      var first := Element(points, 0);
      if Nullish(first) {
        return false;
      }
      var path := [VertexOf(first)];
      var i := 1;
      while i < Len(points)
        invariant 1 <= i <= Len(points)
        invariant forall k :: 0 <= k < i ==> !Nullish(Element(points, k))
        invariant path == PathOf(points, i)
        invariant strokeStyle == Prop(lineData, "color") && lineWidth == Prop(lineData, "width")
        invariant ops == old(ops)
      {
        var p := Element(points, i);
        if Nullish(p) {
          return false;
        }
        path := path + [VertexOf(p)];
        i := i + 1;
      }
      ops := ops + [Stroke(strokeStyle, lineWidth, path)];
      strokeStyle, lineWidth := originalColor, originalWidth;
      ok := true;
    }

    /** `redrawCanvas`, the handler of `canvas-state`: clear, then draw the
        lines in order; a line that throws ends the replay. */
    method RedrawCanvas(lines: seq<Value>) returns (ok: bool)
      requires Valid()
      modifies this`strokeStyle, this`lineWidth, this`ops
      ensures Valid()
      ensures ok <==> !AnyThrown(lines)
      ensures ops == old(ops) + [Fill] + Replay(lines)
      ensures ok ==> strokeStyle == old(strokeStyle) && lineWidth == old(lineWidth)
    {
      ClearLocalCanvas();
      var i := 0;
      while i < |lines|
        invariant 0 <= i <= |lines|
        invariant Valid()
        invariant forall k :: 0 <= k < i ==> !DrawOutcome(lines[k]).Thrown?
        invariant ops == old(ops) + [Fill] + Replay(lines[..i])
        invariant strokeStyle == old(strokeStyle) && lineWidth == old(lineWidth)
      {
        ok := DrawRemoteLine(lines[i]);
        if !ok {
          ReplayEndsAt(lines, i);
          return;
        }
        ReplayPrefixExtends(lines, i);
        i := i + 1;
      }
      assert lines[..i] == lines;
      ok := true;
    }
  }
}
