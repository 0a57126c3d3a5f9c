# Collaborative whiteboard: server session state and client stroke capture

This project models the two pieces of sequential logic in a small socket.io
whiteboard ("pizarra colaborativa").

- **The server** (`server.js`) keeps one in-memory record,
  `canvasState = { lines, users }`. Four socket handlers change it:
  - connection: count the user, broadcast the count, send the history to the new socket;
  - `draw`: validate the payload, append it, relay it to everyone else;
  - `clear canvas`: empty the history and tell everyone;
  - `disconnect`: uncount the user, clamped at zero, and broadcast the count.

  `server.dfy` models the record as the class `CanvasServer`. Each handler
  is a method that returns the messages it emits. Each message is tagged
  with its audience: `All` (`io.emit`), `AllExcept(sender)`
  (`socket.broadcast.emit`) or `Only(socket)` (`socket.emit`). Payloads are
  JavaScript values (`payload.dfy`), so `validateLineData` is modelled with
  JavaScript's own truthiness, `typeof` and property reads. It therefore
  rejects a string `width` or a non-array `points`, as the source does. The
  pure function `Step` describes one handler run on a value snapshot of the
  record, and `Run` a sequence of runs. Each method's contract ties it to
  `Step`, and the lemmas about runs are stated on `Run`.
- **The client** (`public/script.js`, class `PizarraColaborativa`) is
  modelled in `client.dfy` as the class `Whiteboard`. It covers the
  stroke-capture state machine (`startDrawing`, `draw`, `stopDrawing` over
  `isDrawing`, `currentLine` and `lastX/lastY`) and the
  `reconnectionAttempts` counter. It also covers `drawRemoteLine` and
  `redrawCanvas`, which paint lines received from the server. `socket.emit`
  becomes an `outbox`. The 2D context becomes its `strokeStyle`, its
  `lineWidth` and the list of paint operations issued on it. Coordinates
  are opaque numbers.
- **Across the two** (`session.dfy`): every line the client can emit passes
  the server's validator. A client receiving that line strokes exactly the
  captured points, with the emitted color and width. A history made of such
  lines redraws completely and in order. A late joiner's redraw paints what
  a client that received each of those lines as a relayed `draw` painted,
  as long as no stored line throws in the client. (A line's author never
  receives it back: it painted the line segment by segment while drawing,
  in whatever style was current at each move.)

Two facts of the source shape the model:

- `server.js:46` calls `this.validateLineData`. Inside an arrow function at
  the top level of a CommonJS module, `this` is `module.exports`, so as
  written the call throws. The model calls the module-level validator,
  which is evidently what was meant. A comment on `OnDraw` records this.
- Only the `draw` event has the same name on both sides. The server emits
  `canvas state`, `users update` and `canvas cleared`, and handles
  `clear canvas`. The client listens for `canvas-state`, `users-update` and
  `canvas-cleared`, and emits `clear-canvas` (and `request-canvas-state`,
  which no server handler receives). Each side is modelled with its own
  names, and `Session.OnlyDrawNamesAgree` states the mismatch. The
  client-side lemmas about redrawing a history describe what the client's
  handler would do with the server's history. They do not claim that the
  two sides exchange it.

The validator checks only that `points` is an array of at least two entries.
It never looks at the entries themselves. `Session.NullPointsBreakReplay`
shows that a line with points `[null, null]` is accepted, stored and relayed,
but throws a TypeError in every client that draws it. This happens after the
client has set its stroke style, which is then never restored. Inside a
history, that error ends `redrawCanvas`'s `forEach` early. The model keeps
this behaviour as written.

Touch input never produces a shared line. `handleTouchMove` passes the
`Touch` object to `draw`, which calls `preventDefault` on it and throws
before painting or capturing the point. A touch stroke therefore keeps only
its first point, and `stopDrawing` never emits it
(`Client.Whiteboard.TouchStroke`). The model keeps this behaviour as
written.

"Users = connects − disconnects" holds only when no disconnect is handled
before the connects that precede it (`Server.Balanced`). The transport
guarantees that order, one disconnect per connected socket. Without it, the
clamp at zero loses a decrement (`Server.UnbalancedRunMiscounts`).
Unconditionally, the count is at least connects − disconnects.

## Model

| member | source | states |
|---|---|---|
| `Server.ValidateLineData` | server.js:87-93 | A payload is accepted exactly when it is an object whose `points` is an array of at least two entries, whose `color` is a string and whose `width` is a number; null, arrays, strings and wrongly typed fields are rejected |
| `Server.CanvasServer.constructor` | server.js:24-27 | The record starts with no lines and no users |
| `Server.CanvasServer.OnConnection` | server.js:30-41 | Users goes up by exactly one and lines are untouched; the new count goes to all sockets, then the whole history, in insertion order, goes to the new socket only |
| `Server.CanvasServer.OnDraw` | server.js:44-55 | A valid payload is appended after all earlier lines and relayed to every socket but the sender; an invalid one changes nothing and sends nothing; users never changes; every stored line stays valid |
| `Server.CanvasServer.OnClearCanvas` | server.js:58-66 | Lines become empty whatever they held, users is unchanged, and `canvas cleared` goes to all sockets including the sender |
| `Server.CanvasServer.OnDisconnect` | server.js:69-78 | Users becomes max(0, users − 1), lines are untouched, and the new count goes to all sockets |
| `Server.ClearIsIdempotent` | server.js:58-63 | Clearing empties the history, clearing twice equals clearing once, and the notice is addressed to all |
| `Server.RunKeepsLinesValid` | server.js:46-48 | Across any run of events, every stored line satisfies the validator |
| `Server.RunUsersAtLeast` | server.js:33-74 | After any run from the initial record, users is at least connects − disconnects (the clamp only adds) |
| `Server.RunUsersCount` | server.js:33-74 | After n connects and m disconnects where no prefix has more disconnects than connects, users is exactly n − m |
| `Server.UnbalancedRunMiscounts` | server.js:71 | A disconnect handled at count zero followed by a connect leaves users at 1 although connects − disconnects is 0 |
| `Server.RunLines` | server.js:46-60 | After any run, the history is exactly the validated draw payloads since the last clear, in arrival order (preceded by the earlier history when the run has no clear) |
| `Server.LateJoinerHistory` | server.js:34-41 | A socket joining after a balanced run gets the count connects − disconnects + 1 broadcast to all, and alone receives the accepted draws since the last clear |
| `Client.Whiteboard.constructor` | public/script.js:6-47 | Not drawing, pen at (0, 0), red `#ff0000` brush of size 5, empty line, zero attempts, nothing emitted; `setupCanvas` styles the context red/5, then paints one white fill |
| `Client.Whiteboard.OnConnect` | public/script.js:92-97 | The `connect` handler marks the socket connected and resets `reconnectionAttempts` to 0 |
| `Client.Whiteboard.OnDisconnect` | public/script.js:100-104 | The `disconnect` handler leaves the socket disconnected and the drawing state as it was |
| `Client.Whiteboard.OnConnectError` | public/script.js:107-116 | `connect_error` increments `reconnectionAttempts` by exactly one and reports whether it is still within the maximum of 10 |
| `Client.Whiteboard.StartDrawing` | public/script.js:148-164 | Disconnected: `isDrawing`, `currentLine` and the pen are unchanged. Connected: drawing starts with exactly one point at (x, y) carrying the current color and brush size, and the pen moves there |
| `Client.Whiteboard.Draw` | public/script.js:166-186 | A no-op unless drawing and connected; otherwise exactly one point with the current color and width is appended at the end of the line, the pen moves to it, and one segment from the old pen position is painted |
| `Client.Whiteboard.StopDrawing` | public/script.js:188-203 | A no-op when not drawing; otherwise drawing stops and the line is always emptied, and it is emitted with the current color and width exactly when it has more than one point and the socket is connected; every emitted line keeps at least two points |
| `Client.Whiteboard.HandleTouchMove` | public/script.js:210-213 | Nothing changes. The handler throws, because `draw` calls `preventDefault` on a `Touch`, exactly when drawing and connected; otherwise `draw` returns at its guard |
| `Client.Whiteboard.TouchStroke` | public/script.js:205-213 | A touch gesture (start, any number of moves, `touchend` bound to `stopDrawing`) ends with drawing stopped, an empty line, nothing painted and nothing emitted |
| `Client.Whiteboard.HandleColorChange` | public/script.js:226-229 | The current color and the context's stroke style become the picked color |
| `Client.Whiteboard.HandleBrushSizeChange` | public/script.js:231-235 | The brush size and the context's line width become the given size |
| `Client.Whiteboard.ClearLocalCanvas` | public/script.js:249-252 | One white fill is painted; nothing else changes |
| `Client.Whiteboard.HandleClearCanvas` | public/script.js:237-247 | When connected and confirmed, the canvas is filled and `clear-canvas` is emitted; otherwise nothing changes |
| `Client.Whiteboard.DrawRemoteLine` | public/script.js:262-283 | A nullish line throws before any change; missing/falsy `points` or fewer than 2 entries paints nothing and changes nothing; otherwise the path through every entry is stroked with the line's color and width and the previous style and width are restored, unless an entry is nullish, which throws with the style left changed |
| `Client.Whiteboard.RedrawCanvas` | public/script.js:254-260 | Fills the canvas, then paints the lines' strokes in order up to the first line that throws; succeeds exactly when none throws, and then the style is as before |
| `Client.ReplayPrefixExtends` | public/script.js:257-259 | When no earlier line throws, redrawing one more line paints what it paints after what the earlier lines painted |
| `Client.ReplayEndsAt` | public/script.js:257-259 | A line that throws ends the redraw: the whole redraw paints only what the lines before it paint |
| `Client.ReplayMatchesLive` | public/script.js:126-134 | When no line throws, redrawing a history paints the same strokes as receiving each line as a separate `draw` event |
| `Client.PathOfAt` | public/script.js:271-276 | The k-th vertex of the stroked path is the k-th entry's (x, y), and the path has one vertex per entry |
| `Client.PathOfLength` | public/script.js:271-276 | The path built from the first n entries has n vertices |
| `Session.EmittedLineAccepted` | public/script.js:194-199 | A line of two or more captured points, as emitted, passes `validateLineData` and is stroked by a receiver as exactly those points, in order, with the emitted color and width |
| `Session.OutboxPassesValidation` | public/script.js:188-203 | Every `draw` the client has emitted passes the server's validation |
| `Session.RelayedLineDrawnAsCaptured` | server.js:44-55 | The server stores a client's line after its history and relays it to all but the sender, who alone does not receive it; receivers draw it as captured |
| `Session.ValidLineReachesCanvas` | server.js:87-93 | A line that passes validation is never skipped by `drawRemoteLine`; it throws after restyling exactly when an entry is nullish, and otherwise is stroked with its own color and width through one vertex per entry |
| `Session.StoredLinesReachCanvas` | server.js:46-48 | Every line a valid server record holds, and so every line of a `canvas state` history, is neither skipped nor throws before the style is set |
| `Session.HistoryOfClientLinesRedraws` | public/script.js:254-283 | A history made of client-emitted lines redraws without throwing, as one stroke per line in history order |
| `Session.NullPointsBreakReplay` | server.js:87-93 | A line with points `[null, null]` passes validation yet throws in the client after restyling, and a history holding it paints nothing after it, unlike live delivery |
| `Session.LateJoinerPaintsLiveCanvas` | server.js:41 | When no accepted line throws, the history a joining socket receives redraws to the strokes painted by a client that received each accepted line as a relayed `draw` (not the line's author, who painted it segment by segment) |
| `Session.OnlyDrawNamesAgree` | public/script.js:126-145 | Of the server's events only `draw` has a name the client listens for, and of the client's emits only `draw` has a name the server handles |

## Left out

- Express setup, static files, the `/` route, `server.listen` and the SIGTERM shutdown (`server.js:1-20, 95-108`): HTTP and process I/O.
- The socket.io transport: delivery, ordering across sockets, reconnection timing and the `reconnect` event. Emits are returned or recorded messages with an audience; the set of connected sockets is not tracked, as in the source, which only counts them.
- The server's `error` handler and every `console.log`/`console.error`: logging only.
- Client DOM and UI work: `setupEventListeners`, `initializeSocket`'s options, the status, loading-message and user-count updates (so the `users-update` handler), `updateBrushSizeDisplay`, `alert` and `confirm` (the answer is a parameter of `HandleClearCanvas`), and `handleResize` with its `setTimeout` and `request-canvas-state` emit.
- `Client.Whiteboard.Draw`: covers mouse input only. `handleTouchMove` hands `draw` a `Touch` object, which throws at `e.preventDefault()`; that path is `Client.Whiteboard.HandleTouchMove`. `handleTouchStart` only forwards the first touch's coordinates to `StartDrawing`.
- `getCanvasCoordinates`: floating-point scaling; points are given as canvas coordinates.
- `parseInt` in `handleBrushSizeChange`: the size is given as a number. Numbers are reals, so NaN and the infinities are not representable anywhere in the model.
- Canvas pixel work: paths are recorded as operations; the context's setters are modelled as plain assignments, so a color string the canvas would ignore, or a non-positive width, is recorded as assigned.
- `Payload.Prop`, `Client.Len`, `Client.Element`: a Dafny string is a sequence of Unicode scalar values, while JavaScript counts a string's `length` and indexes it in UTF-16 code units. A string with characters outside the Basic Multilingual Plane therefore has a smaller `length` and different entries in the model (a `points` string "😀" has length 1 here and 2 in JavaScript), and lone surrogates such as `"\ud800"` cannot be represented. The server's validator never accepts a string `points`, so only `Client.DrawOutcome` on such a payload is affected.
- `Client.DrawOutcome`: a plain object used as `points` is treated as having no length and no indexable entries; its own `length` or numeric keys are not consulted, and the relational comparison of such a `length` with 2 is not modelled.
- `Client.Whiteboard.RedrawCanvas`: when a line throws, the contract does not say what the style and width are afterwards; it says only that painting stops there.
- The model does not make the client and server exchange the `canvas state`/`canvas-state`, `users update`/`users-update`, `canvas cleared`/`canvas-cleared` and `clear canvas`/`clear-canvas` events, since their names differ.
