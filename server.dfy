/** The whiteboard server: one in-memory canvas record, `{ lines, users }`,
    changed by the four socket.io handlers (connection, `draw`,
    `clear canvas`, `disconnect`). Each handler returns the messages it sends,
    each tagged with its audience, in place of the transport's emits. */
module Server {
  import opened Payload

  /** A socket.io connection id; opaque. */
  type SocketId = string

  /** Who receives an outbound message: `io.emit` reaches every connected
      socket, `socket.broadcast.emit` every socket but the sender, and
      `socket.emit` the one socket. */
  datatype Audience = All | AllExcept(sender: SocketId) | Only(target: SocketId)

  /** The events the server emits, with their payloads. */
  datatype ServerEvent =
    | UsersUpdate(count: nat)
    | CanvasState(lines: seq<Value>)
    | DrawBroadcast(line: Value)
    | CanvasCleared
  {
    /** The event name on the wire. */
    function Name(): string {
      match this
      case UsersUpdate(_) => "users update"
      case CanvasState(_) => "canvas state"
      case DrawBroadcast(_) => "draw"
      case CanvasCleared => "canvas cleared"
    }
  }

  /** The event names the server registers handlers for on a socket. */
  const HANDLED: set<string> := {"draw", "clear canvas", "disconnect", "error"}

  datatype Outbound = Outbound(audience: Audience, event: ServerEvent)

  /** `validateLineData`: a payload is a line when it is truthy, its `points`
      is an array of at least two entries, its `color` a string and its
      `width` a number. Only an object can pass; the entries of `points` are
      not inspected. */
  predicate ValidateLineData(lineData: Value): (ok: bool)
    ensures ok <==>
      && lineData.Obj?
      && "points" in lineData.fields && lineData.fields["points"].Arr?
      && |lineData.fields["points"].items| >= 2
      && "color" in lineData.fields && lineData.fields["color"].Str?
      && "width" in lineData.fields && lineData.fields["width"].Num?
  {
    && Truthy(lineData)
    && Prop(lineData, "points").Arr?
    && TypeOf(Prop(lineData, "color")) == "string"
    && TypeOf(Prop(lineData, "width")) == "number"
    && Prop(Prop(lineData, "points"), "length").n >= 2.0
  }

  predicate AllValid(lines: seq<Value>) {
    forall k :: 0 <= k < |lines| ==> ValidateLineData(lines[k])
  }

  /** The canvas record as a value, for reasoning about runs of events. */
  datatype Snapshot = Snapshot(lines: seq<Value>, users: nat)

  const INITIAL := Snapshot([], 0)

  /** An event the server handles, with the socket it arrives on. */
  datatype Inbound =
    | Connected(socket: SocketId)
    | DrawReceived(socket: SocketId, payload: Value)
    | ClearReceived(socket: SocketId)
    | Disconnected(socket: SocketId)

  /** `Math.max(0, users - 1)` */
  function UsersAfterLeave(users: nat): nat {
    if users - 1 < 0 then 0 else users - 1
  }

  /** One handler run: the new record and the messages sent, in order. */
  function Step(s: Snapshot, e: Inbound): (Snapshot, seq<Outbound>) {
    match e
    case Connected(id) =>
      var users := s.users + 1;
      (Snapshot(s.lines, users),
       [Outbound(All, UsersUpdate(users)), Outbound(Only(id), CanvasState(s.lines))])
    case DrawReceived(id, p) =>
      if ValidateLineData(p) then
        (Snapshot(s.lines + [p], s.users), [Outbound(AllExcept(id), DrawBroadcast(p))])
      else
        (s, [])
    case ClearReceived(_) =>
      (Snapshot([], s.users), [Outbound(All, CanvasCleared)])
    case Disconnected(_) =>
      var users := UsersAfterLeave(s.users);
      (Snapshot(s.lines, users), [Outbound(All, UsersUpdate(users))])
  }

  /** The record after handling `evs` one at a time, starting from `s`. */
  function Run(s: Snapshot, evs: seq<Inbound>): Snapshot
    decreases |evs|
  {
    if evs == [] then s else Step(Run(s, evs[..|evs| - 1]), evs[|evs| - 1]).0
  }

  /** The in-memory `canvasState` and its handlers. */
  class CanvasServer {
    var lines: seq<Value>
    var users: nat

    /** Every stored line passed validation. */
    ghost predicate Valid()
      reads this
    {
      AllValid(lines)
    }

    function State(): Snapshot
      reads this
    {
      Snapshot(lines, users)
    }

    constructor ()
      ensures Valid()
      ensures State() == INITIAL
    {
      lines := [];
      users := 0;
    }

    /** `io.on('connection')`: count the user, tell everyone the new count,
        then send the whole history, in insertion order, to the new socket. */
    method OnConnection(socket: SocketId) returns (out: seq<Outbound>)
      requires Valid()
      modifies this
      ensures Valid()
      ensures users == old(users) + 1
      ensures lines == old(lines)
      ensures out == [Outbound(All, UsersUpdate(users)), Outbound(Only(socket), CanvasState(old(lines)))]
      ensures (State(), out) == Step(old(State()), Connected(socket))
    {
      users := users + 1;
      out := [Outbound(All, UsersUpdate(users))];
      out := out + [Outbound(Only(socket), CanvasState(lines))];
    }

    /** `socket.on('draw')`. The source calls `this.validateLineData`, but in
        an arrow function at the top level of a CommonJS module `this` is
        `module.exports`, which has no such member, so as written the call
        throws; this models the evident intent, a call of the module-level
        validator. */
    method OnDraw(socket: SocketId, lineData: Value) returns (out: seq<Outbound>)
      requires Valid()
      modifies this
      ensures Valid()
      ensures users == old(users)
      ensures ValidateLineData(lineData) ==>
        lines == old(lines) + [lineData] && out == [Outbound(AllExcept(socket), DrawBroadcast(lineData))]
      ensures !ValidateLineData(lineData) ==> lines == old(lines) && out == []
      ensures (State(), out) == Step(old(State()), DrawReceived(socket, lineData))
    {
      out := [];
      if ValidateLineData(lineData) {
        lines := lines + [lineData];
        out := [Outbound(AllExcept(socket), DrawBroadcast(lineData))];
      }
    }

    /** `socket.on('clear canvas')`: drop the history and tell every socket,
        the sender included. */
    method OnClearCanvas(socket: SocketId) returns (out: seq<Outbound>)
      requires Valid()
      modifies this
      ensures Valid()
      ensures lines == [] && users == old(users)
      ensures out == [Outbound(All, CanvasCleared)]
      ensures (State(), out) == Step(old(State()), ClearReceived(socket))
    {
      lines := [];
      out := [Outbound(All, CanvasCleared)];
    }

    /** `socket.on('disconnect')`: uncount the user, never below zero, and
        tell everyone the new count. */
    method OnDisconnect(socket: SocketId) returns (out: seq<Outbound>)
      requires Valid()
      modifies this
      ensures Valid()
      ensures users == if old(users) == 0 then 0 else old(users) - 1
      ensures lines == old(lines)
      ensures out == [Outbound(All, UsersUpdate(users))]
      ensures (State(), out) == Step(old(State()), Disconnected(socket))
    {
      users := UsersAfterLeave(users);
      out := [Outbound(All, UsersUpdate(users))];
    }
  }

  // ---------------------------------------------------------------------
  // Properties of single handler runs

  /** Clearing empties the history whatever it held, twice is as good as
      once, and the notice reaches everybody, the sender included. */
  lemma ClearIsIdempotent(s: Snapshot, a: SocketId, b: SocketId)
    ensures Step(s, ClearReceived(a)).0.lines == []
    ensures Step(Step(s, ClearReceived(a)).0, ClearReceived(b)).0 == Step(s, ClearReceived(b)).0
    ensures Step(s, ClearReceived(a)).1 == [Outbound(All, CanvasCleared)]
  {
  }

  // ---------------------------------------------------------------------
  // Properties of runs of events

  /** The handlers keep every stored line valid. */
  lemma {:induction false} RunKeepsLinesValid(s: Snapshot, evs: seq<Inbound>)
    requires AllValid(s.lines)
    ensures AllValid(Run(s, evs).lines)
    decreases |evs|
  {
    if evs != [] {
      RunKeepsLinesValid(s, evs[..|evs| - 1]);
    }
  }

  function Connects(evs: seq<Inbound>): nat
    decreases |evs|
  {
    if evs == [] then 0
    else Connects(evs[..|evs| - 1]) + (if evs[|evs| - 1].Connected? then 1 else 0)
  }

  function Disconnects(evs: seq<Inbound>): nat
    decreases |evs|
  {
    if evs == [] then 0
    else Disconnects(evs[..|evs| - 1]) + (if evs[|evs| - 1].Disconnected? then 1 else 0)
  }

  /** No prefix of the run has more disconnects than connects, as when every
      socket disconnects at most once and only after it connected. */
  predicate Balanced(evs: seq<Inbound>) {
    forall k :: 0 <= k <= |evs| ==> Disconnects(evs[..k]) <= Connects(evs[..k])
  }

  /** Clamping at zero can only add to the count: after any run from the
      initial record the count is at least connects minus disconnects. */
  lemma {:induction false} RunUsersAtLeast(evs: seq<Inbound>)
    ensures Run(INITIAL, evs).users >= Connects(evs) - Disconnects(evs)
    decreases |evs|
  {
    if evs != [] {
      RunUsersAtLeast(evs[..|evs| - 1]);
    }
  }

  /** After n connects and m disconnects, interleaved so that no disconnect
      outruns the connects before it, the count is exactly n - m. */
  lemma {:induction false} RunUsersCount(evs: seq<Inbound>)
    requires Balanced(evs)
    ensures Run(INITIAL, evs).users == Connects(evs) - Disconnects(evs)
    decreases |evs|
  {
    if evs != [] {
      var front := evs[..|evs| - 1];
      assert Balanced(front) by {
        forall k | 0 <= k <= |front|
          ensures Disconnects(front[..k]) <= Connects(front[..k])
        {
          assert front[..k] == evs[..k];
        }
      }
      RunUsersCount(front);
      assert evs[..|evs|] == evs;
      assert evs[..|evs| - 1] == front;
    }
  }

  /** Without the balance the equation fails: a disconnect handled on an
      empty count is lost by the clamp. */
  lemma UnbalancedRunMiscounts()
    ensures var evs := [Disconnected("a"), Connected("b")];
      Run(INITIAL, evs).users == 1 && Connects(evs) - Disconnects(evs) == 0
  {
  }

  /** What one event adds to the history: its payload when it is a draw
      that passes validation. */
  function Kept(e: Inbound): seq<Value> {
    if e.DrawReceived? && ValidateLineData(e.payload) then [e.payload] else []
  }

  /** The history that the events since the last clear are appended to:
      empty when `evs` holds a clear, the history held before `evs`
      otherwise. */
  function Base(s: Snapshot, evs: seq<Inbound>): seq<Value>
    decreases |evs|
  {
    if evs == [] then s.lines
    else if evs[|evs| - 1].ClearReceived? then []
    else Base(s, evs[..|evs| - 1])
  }

  lemma {:induction false} BaseFromEmpty(evs: seq<Inbound>)
    ensures Base(INITIAL, evs) == []
    decreases |evs|
  {
    if evs != [] {
      BaseFromEmpty(evs[..|evs| - 1]);
    }
  }

  /** The payloads of the draws in `evs` that passed validation, in order. */
  function Accepted(evs: seq<Inbound>): seq<Value>
    decreases |evs|
  {
    if evs == [] then []
    else
      var e := evs[|evs| - 1];
      Accepted(evs[..|evs| - 1]) + Kept(e)
  }

  /** The events after the last clear (all of them when there is none). */
  function SinceLastClear(evs: seq<Inbound>): seq<Inbound>
    decreases |evs|
  {
    if evs == [] then []
    else if evs[|evs| - 1].ClearReceived? then []
    else SinceLastClear(evs[..|evs| - 1]) + [evs[|evs| - 1]]
  }

  /** The history is exactly the accepted draws since the last clear, in the
      order they arrived, after the history held before the run when the run
      has no clear. */
  lemma {:induction false} RunLines(s: Snapshot, evs: seq<Inbound>)
    ensures Run(s, evs).lines == Base(s, evs) + Accepted(SinceLastClear(evs))
    decreases |evs|
  {
    if evs != [] {
      var front, e := evs[..|evs| - 1], evs[|evs| - 1];
      RunLines(s, front);
      StepLines(Run(s, front), e);
      if !e.ClearReceived? {
        AcceptedSnoc(SinceLastClear(front), e);
      }
    }
  }

  /** What one handler run does to the history. */
  lemma StepLines(s: Snapshot, e: Inbound)
    ensures Step(s, e).0.lines == if e.ClearReceived? then [] else s.lines + Kept(e)
  {
  }

  lemma AcceptedSnoc(evs: seq<Inbound>, e: Inbound)
    ensures Accepted(evs + [e]) == Accepted(evs) + Kept(e)
  {
    assert (evs + [e])[..|evs|] == evs;
  }

  /** A socket that joins after a run from the initial record is sent the
      accepted draws since the last clear, and the new count goes to all. */
  lemma LateJoinerHistory(evs: seq<Inbound>, id: SocketId)
    requires Balanced(evs)
    ensures Step(Run(INITIAL, evs), Connected(id)).1 ==
      [Outbound(All, UsersUpdate(Connects(evs) - Disconnects(evs) + 1)),
       Outbound(Only(id), CanvasState(Accepted(SinceLastClear(evs))))]
  {
    RunLines(INITIAL, evs);
    BaseFromEmpty(evs);
    RunUsersCount(evs);
    var history := Accepted(SinceLastClear(evs));
    assert Run(INITIAL, evs).lines == [] + history == history;
  }
}
