/** Properties that relate the client and the server: what a line captured
    and emitted by one client becomes at the server and at the other
    clients. Only the `draw` event has the same name on both sides; the
    lemmas about redrawing a history describe what the client's
    `canvas-state` handler does with the lines the server sends under the
    name `canvas state`. */
module Session {
  import opened Payload
  import Server
  import Client

  /** The path a client strokes for the line another client emitted. */
  function Polyline(points: seq<Client.Point>): seq<Client.Vertex> {
    seq(|points|, i requires 0 <= i < |points| => Client.Vertex(Num(points[i].x), Num(points[i].y)))
  }

  function StrokeOf(e: Client.ClientEmit): Client.CanvasOp
    requires e.DrawEmit?
  {
    Client.Stroke(Str(e.color), Num(e.width), Polyline(e.points))
  }

  /** Every line a client can emit (two points or more) passes the server's
      validation, and a receiving client strokes exactly the captured
      points, in order, with the emitted color and width. */
  lemma EmittedLineAccepted(e: Client.ClientEmit)
    requires e.DrawEmit? && |e.points| >= 2
    ensures Server.ValidateLineData(e.Wire())
    ensures Client.DrawOutcome(e.Wire()) == Client.Drawn(StrokeOf(e))
  {
    var v := e.Wire();
    var points := Prop(v, "points");
    var n := |e.points|;
    assert points.items == seq(n, i requires 0 <= i < n => Client.PointValue(e.points[i]));
    assert Client.Len(points) == n;
    forall k | 0 <= k < n
      ensures Client.Element(points, k) == Client.PointValue(e.points[k])
    {
    }
    assert !Client.HasNullishEntry(points);
    var path := Client.PathOf(points, n);
    Client.PathOfLength(points, n);
    forall k | 0 <= k < n
      ensures path[k] == Polyline(e.points)[k]
    {
      Client.PathOfAt(points, n, k);
    }
    assert path == Polyline(e.points);
  }

  /** Whatever the client does, every line in its outbox passes the
      server's validation. */
  lemma OutboxPassesValidation(c: Client.Whiteboard)
    requires c.Valid()
    ensures forall k :: 0 <= k < |c.outbox| && c.outbox[k].DrawEmit? ==> Server.ValidateLineData(c.outbox[k].Wire())
  {
    // Valid() keeps at least two points in every emitted line, and the
    // validator's characterization settles the rest.
  }

  /** A client's line received by the server is stored after the history,
      relayed to every other socket, and drawn there as the sender captured
      it. */
  lemma RelayedLineDrawnAsCaptured(s: Server.Snapshot, sender: Server.SocketId, e: Client.ClientEmit)
    requires e.DrawEmit? && |e.points| >= 2
    ensures Server.Step(s, Server.DrawReceived(sender, e.Wire())) ==
      (Server.Snapshot(s.lines + [e.Wire()], s.users),
       [Server.Outbound(Server.AllExcept(sender), Server.DrawBroadcast(e.Wire()))])
    ensures Client.DrawOutcome(e.Wire()) == Client.Drawn(StrokeOf(e))
  {
    EmittedLineAccepted(e);
  }

  /** A line that passes `validateLineData` always reaches the canvas of a
      client that draws it: it is never skipped, and it throws (after the
      style is set) exactly when one of its entries is nullish; otherwise
      it is stroked through every entry with its own color and width. */
  lemma ValidLineReachesCanvas(line: Value)
    requires Server.ValidateLineData(line)
    ensures var points := line.fields["points"];
      && (Client.HasNullishEntry(points) ==> Client.DrawOutcome(line) == Client.Thrown(true))
      && (!Client.HasNullishEntry(points) ==>
            && Client.DrawOutcome(line).Drawn?
            && Client.DrawOutcome(line).op.style == line.fields["color"]
            && Client.DrawOutcome(line).op.width == line.fields["width"]
            && |Client.DrawOutcome(line).op.path| == |points.items|)
  {
    var points := line.fields["points"];
    if !Client.HasNullishEntry(points) {
      Client.PathOfLength(points, Client.Len(points));
    }
  }

  /** What `Server.CanvasServer.Valid` keeps gives every stored line, and so
      every line of a `canvas state` history, a visible effect on a client
      that draws it: none is skipped, and none throws before the style is
      set. */
  lemma StoredLinesReachCanvas(srv: Server.CanvasServer)
    requires srv.Valid()
    ensures forall k :: 0 <= k < |srv.lines| ==>
      && !Client.DrawOutcome(srv.lines[k]).Skipped?
      && Client.DrawOutcome(srv.lines[k]) != Client.Thrown(false)
  {
    // Valid() is AllValid(lines), and a line passing the validator is an
    // object whose `points` is an array of at least two entries.
  }

  function Wires(emits: seq<Client.ClientEmit>): seq<Value> {
    seq(|emits|, i requires 0 <= i < |emits| => emits[i].Wire())
  }

  function Strokes(emits: seq<Client.ClientEmit>): seq<Client.CanvasOp>
    requires forall k :: 0 <= k < |emits| ==> emits[k].DrawEmit?
  {
    seq(|emits|, i requires 0 <= i < |emits| => StrokeOf(emits[i]))
  }

  predicate WellFormed(emits: seq<Client.ClientEmit>) {
    forall k :: 0 <= k < |emits| ==> emits[k].DrawEmit? && |emits[k].points| >= 2
  }

  /** A history made of lines that clients emitted redraws completely: one
      stroke per line, in history order, each as its sender captured it. */
  lemma {:induction false} HistoryOfClientLinesRedraws(emits: seq<Client.ClientEmit>)
    requires WellFormed(emits)
    ensures !Client.AnyThrown(Wires(emits))
    ensures Client.Replay(Wires(emits)) == Strokes(emits)
    decreases |emits|
  {
    var lines := Wires(emits);
    if emits != [] {
      EmittedLineAccepted(emits[0]);
      assert WellFormed(emits[1..]) by {
        forall k | 0 <= k < |emits[1..]| ensures emits[1..][k].DrawEmit? && |emits[1..][k].points| >= 2 {
          assert emits[1..][k] == emits[k + 1];
        }
      }
      HistoryOfClientLinesRedraws(emits[1..]);
      assert lines[1..] == Wires(emits[1..]);
      assert Strokes(emits) == [StrokeOf(emits[0])] + Strokes(emits[1..]);
      assert !Client.AnyThrown(lines) by {
        forall k | 0 <= k < |lines| ensures !Client.DrawOutcome(lines[k]).Thrown? {
          if k > 0 {
            assert lines[k] == Wires(emits[1..])[k - 1];
          }
        }
      }
    }
  }

  /** The validator does not look inside `points`: a line whose points are
      both `null` is accepted and relayed, but throws in every client that
      draws it, and in a history it ends the redraw early, so a client that
      joins later paints less than one that received each line live. */
  lemma NullPointsBreakReplay()
    ensures var bad := Obj(map["points" := Arr([Null, Null]), "color" := Str("#000"), "width" := Num(3.0)]);
      var good := Client.DrawEmit([Client.Point(0.0, 0.0, "#000", 3.0), Client.Point(1.0, 1.0, "#000", 3.0)], "#000", 3.0).Wire();
      && Server.ValidateLineData(bad)
      && Client.DrawOutcome(bad) == Client.Thrown(true)
      && Client.Replay([bad, good]) == []
      && |Client.LivePainted([bad, good])| == 1
  {
    var bad := Obj(map["points" := Arr([Null, Null]), "color" := Str("#000"), "width" := Num(3.0)]);
    var e := Client.DrawEmit([Client.Point(0.0, 0.0, "#000", 3.0), Client.Point(1.0, 1.0, "#000", 3.0)], "#000", 3.0);
    var good := e.Wire();
    assert Client.Element(Prop(bad, "points"), 0) == Null;
    assert Client.HasNullishEntry(Prop(bad, "points"));
    EmittedLineAccepted(e);
    assert [bad, good][1..] == [good];
    assert [good][1..] == [];
    assert Client.Painted(Client.DrawOutcome(bad)) == [];
    assert Client.LivePainted([good]) == [StrokeOf(e)] + Client.LivePainted([]);
  }

  /** A socket that joins after a run is sent the accepted lines since the
      last clear; when none of them throws, redrawing them paints the same
      strokes, in the same order, as a client that received each of those
      lines as a relayed `draw`. A line's author is not such a client: the
      relay skips the sender, and the author painted the line segment by
      segment while drawing. */
  lemma LateJoinerPaintsLiveCanvas(evs: seq<Server.Inbound>, id: Server.SocketId)
    requires Server.Balanced(evs)
    requires !Client.AnyThrown(Server.Accepted(Server.SinceLastClear(evs)))
    ensures var out := Server.Step(Server.Run(Server.INITIAL, evs), Server.Connected(id)).1;
      && |out| == 2 && out[1].audience == Server.Only(id) && out[1].event.CanvasState?
      && Client.Replay(out[1].event.lines) == Client.LivePainted(Server.Accepted(Server.SinceLastClear(evs)))
  {
    Server.LateJoinerHistory(evs, id);
    Client.ReplayMatchesLive(Server.Accepted(Server.SinceLastClear(evs)));
  }

  /** Of the server's events only `draw` has a name the client listens for,
      and of the client's emits only `draw` has a name the server handles. */
  lemma OnlyDrawNamesAgree(out: Server.ServerEvent, e: Client.ClientEmit)
    ensures out.Name() in Client.LISTENED <==> out.DrawBroadcast?
    ensures e.Name() in Server.HANDLED <==> e.DrawEmit?
  {
  }
}
