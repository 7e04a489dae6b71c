# Scribble drawing core in Dafny

A model of the drawing and room-state core of Scribble, a multiplayer drawing game.

- **Client.** The canvas captures one pointer or touch gesture at a time as a stroke (tool, colour, width, ordered points). Saved strokes are kept in a list that a window-level "clear-canvas" event empties. Strokes and room-channel messages share one set of types.
- **Server.** A Redis store keeps one hash per room: its players, its strokes and a few scalar game fields. Joining publishes the new room state on the room's events channel. The log level is chosen from a small table of names.

Modules:

- `Wrappers` (`wrappers.dfy`): `Option` and `Result`.
- `Types` (`types.dfy`): `Tool`, `Point`, `Stroke` and the three-variant `WSMessage` union.
- `Canvas` (`canvas.dfy`): `getPos`, the tool style policy, and the `start`/`draw`/`stop`/`clear` handlers.
  - The class `CanvasBoard` holds the component's three refs as fields. Its methods are proved against pure step functions on a `Board` value.
  - `Replay` runs a sequence of handler calls, so that properties of whole gestures can be stated.
  - `Dispatch` and `DomReplay` deliver DOM events to every listener set the component's effect has left attached, one per tool the board has had.
- `Schema` (`schema.dfy`): the `add_user` record (here `User`) with its default score, and `JoinRoomRequest`.
- `RoomStore` (`room_store.dfy`): `GlobalMemory`.
  - Redis is the map field `store` from key to room hash. A hash field the hash lacks is `None`.
  - Published messages are appended to the field `published`.
- `Logger` (`logger.dfy`): `LEVEL_MAP` and the level selection of `configure_logging`.

Redis hashes can be partial. `add_player`, `remove_player`, `clear_strokes` and `clear_canvas` all write one field with `hset`. On a room that does not exist, that write creates a hash holding that field alone, so the model keeps every field optional. Reads default a missing players or strokes list to `[]`, as the source's `json.loads(raw or "[]")` and `data.get(..., "[]")` do.

## Model

| member | source | states |
|---|---|---|
| Types.ToolName | client/lib/types.ts:1 | a tool's wire name is "pencil" or "eraser" |
| Types.ParseTool | client/lib/types.ts:1 | a string names a tool exactly when it is "pencil" or "eraser" |
| Types.ToolNameRoundTrip | client/lib/types.ts:1 | parsing a tool's name gives back that tool |
| Types.ParseToolRoundTrip | client/lib/types.ts:1 | a parsed tool's name is the string it was parsed from, so there are exactly two tools |
| Types.MessageType | client/lib/types.ts:15-36 | every message's `type` tag is DRAW_STROKE, CLEAR_CANVAS or ROOM_STATE |
| Types.MessageTypeDiscriminates | client/lib/types.ts:33-36 | two messages have the same tag exactly when they are the same variant |
| Types.Sender | client/lib/types.ts:15-31 | DRAW_STROKE and CLEAR_CANVAS carry a room id and a player id; ROOM_STATE carries none |
| Canvas.GetPos | client/components/CanvasBoard.tsx:26-32 | the point returned, shifted back by the canvas origin, is the event's client position (the first touch for a touch event) |
| Canvas.GetPosIgnoresEventKind | client/components/CanvasBoard.tsx:29-30 | a touch event and a mouse event at the same client position give the same canvas point |
| Canvas.DefaultStyle | client/components/CanvasBoard.tsx:41-42 | every tool's default width is positive |
| Canvas.ToolPolicy | client/components/CanvasBoard.tsx:41-42 | pencil gives "#000000" at width 3; eraser gives "#FFFFFF" at width 20 |
| Canvas.NewStroke | client/components/CanvasBoard.tsx:39-44 | a new stroke has the given tool, the tool's style and exactly one point, the start position |
| Canvas.StartStep | client/components/CanvasBoard.tsx:34-46 | defines `start`: drawing is set and the current stroke becomes the new one-point stroke; saved strokes are kept. The `CanvasBoard.Start` contract is stated against it |
| Canvas.DrawStep | client/components/CanvasBoard.tsx:56-67 | defines `draw`: no-op when not drawing, otherwise the position is appended to the current stroke. The `CanvasBoard.Draw` contract is stated against it |
| Canvas.StopStep | client/components/CanvasBoard.tsx:69-80 | defines `stop`: no-op when not drawing, otherwise the current stroke is saved last, the current stroke is cleared and drawing ends. The `CanvasBoard.Stop` contract is stated against it |
| Canvas.ClearStep | client/components/CanvasBoard.tsx:83-87 | defines `clear`: the saved strokes become empty and nothing else changes. The `CanvasBoard.Clear` contract is stated against it |
| Canvas.StartBeginsGesture | client/components/CanvasBoard.tsx:34-46 | start sets drawing, makes the current stroke the one-point stroke at the event position, and keeps the saved strokes |
| Canvas.StartDiscardsUnfinished | client/components/CanvasBoard.tsx:35-46 | start during a gesture replaces the unfinished stroke; a later stop saves only the new one |
| Canvas.DrawWhileIdleIsNoOp | client/components/CanvasBoard.tsx:57 | draw when not drawing changes nothing |
| Canvas.DrawAppendsOnePoint | client/components/CanvasBoard.tsx:60-61 | draw while drawing adds exactly one point, at the end; earlier points, other stroke fields and saved strokes are unchanged |
| Canvas.StopWhileIdleIsNoOp | client/components/CanvasBoard.tsx:70 | stop when not drawing changes nothing |
| Canvas.StopSavesStroke | client/components/CanvasBoard.tsx:70-79 | stop while drawing appends the current stroke as the last saved stroke, clears the current stroke and ends drawing |
| Canvas.ClearKeepsGesture | client/components/CanvasBoard.tsx:83-87 | clear keeps the gesture in progress, so a later stop saves it as the only stroke |
| Canvas.Apply | client/components/CanvasBoard.tsx:89-98 | every handler keeps the invariant "drawing exactly when there is a current stroke" |
| Canvas.Replay | client/components/CanvasBoard.tsx:89-98 | the invariant holds after any sequence of handler calls |
| Canvas.ReplayMoves | client/components/CanvasBoard.tsx:56-67 | during a gesture, a run of moves appends their positions to the current stroke in order |
| Canvas.GestureRecordsPoints | client/components/CanvasBoard.tsx:34-80 | start(p0), draw(p1..pk), stop saves exactly one stroke whose points are p0, p1, ..., pk in order, and ends the gesture |
| Canvas.Dispatch | client/components/CanvasBoard.tsx:89-103 | delivering a DOM event to every attached listener set, oldest first, keeps the board invariant; a clear reaches only the newest set |
| Canvas.DomReplay | client/components/CanvasBoard.tsx:89-103 | the board invariant holds after any sequence of DOM events, whatever listener sets are attached |
| Canvas.DispatchDown | client/components/CanvasBoard.tsx:34-46 | a pointer-down with several listener sets attached has the effect of the newest set's `start` alone |
| Canvas.DispatchMove | client/components/CanvasBoard.tsx:56-67 | during a gesture, a pointer-move appends its position once per attached listener set |
| Canvas.DispatchUp | client/components/CanvasBoard.tsx:69-80 | a pointer-up with several listener sets saves the stroke once: the first `stop` ends the gesture and the others do nothing |
| Canvas.DomReplayMoves | client/components/CanvasBoard.tsx:56-67 | during a gesture, a run of pointer-moves appends each position as many times as there are listener sets, in order |
| Canvas.PiledListenersGesture | client/components/CanvasBoard.tsx:89-103 | as written, with k listener sets a gesture saves one stroke with the newest set's tool whose points after the first each appear k times |
| Canvas.ToolSwitchDuplicatesPoints | client/components/CanvasBoard.tsx:89-103 | after one pencil-to-eraser switch, start p0, move p1, stop saves [p0, p1, p1] and not [p0, p1] |
| Canvas.SingleListenerGesture | client/components/CanvasBoard.tsx:89-103 | with one listener set (the tool now selected), start p0, moves p1..pk, stop saves exactly [p0, p1, ..., pk] |
| Canvas.CanvasBoard.constructor | client/components/CanvasBoard.tsx:11-14 | a new board is not drawing, has no current stroke and no saved strokes |
| Canvas.CanvasBoard.Start | client/components/CanvasBoard.tsx:34-46 | the new state is the start step on the old state and the event position |
| Canvas.CanvasBoard.Draw | client/components/CanvasBoard.tsx:56-67 | the new state is the draw step on the old state and the event position |
| Canvas.CanvasBoard.Stop | client/components/CanvasBoard.tsx:69-80 | the new state is the stop step on the old state |
| Canvas.CanvasBoard.Clear | client/components/CanvasBoard.tsx:83-87 | the new state is the old one with no saved strokes |
| Schema.MakeUser | server/app/services/schema.py:4-7 | a user record has the given id and name; its score is the given one, or 0 when omitted |
| RoomStore.RoomKey | server/app/services/redis_services.py:21-22 | defines a room's state key, "room:" + id + ":state" |
| RoomStore.EventsChannel | server/app/services/redis_services.py:24-25 | defines a room's events channel, "room:" + id + ":events" |
| RoomStore.RoomKeyInjective | server/app/services/redis_services.py:21-22 | two room ids with the same state key "room:<id>:state" are equal |
| RoomStore.EventsChannelInjective | server/app/services/redis_services.py:24-25 | two room ids with the same events channel "room:<id>:events" are equal |
| RoomStore.KeyIsNeverChannel | server/app/services/redis_services.py:21-25 | no state key equals any events channel |
| RoomStore.NewRoom | server/app/services/redis_services.py:40-48 | the hash a new room gets is never empty |
| RoomStore.NewRoomShape | server/app/services/redis_services.py:35-47 | a new room holds only the creator with score 0, no strokes, round "0", empty drawer and word, started 0 |
| RoomStore.View | server/app/services/redis_services.py:112-114 | the returned state's players and strokes are the stored lists, or [] when the hash lacks them |
| RoomStore.RemoveById | server/app/services/redis_services.py:76 | the filtered list is no longer than the input and keeps only input players whose id differs |
| RoomStore.RemoveByIdKeepsOthers | server/app/services/redis_services.py:76 | every player with another id is kept |
| RoomStore.RemoveByIdConcat | server/app/services/redis_services.py:76 | removal distributes over concatenation, so kept players stay in their original order |
| RoomStore.RemoveAbsentId | server/app/services/redis_services.py:76 | removing an id nobody has leaves the list unchanged |
| RoomStore.RemoveByIdIdempotent | server/app/services/redis_services.py:72-79 | removing the same id twice equals removing it once |
| RoomStore.Cleared | server/app/services/redis_services.py:93-104 | after a clear the room's hash exists with no strokes, and no other key appears or disappears |
| RoomStore.ClearedProperties | server/app/services/redis_services.py:93-104 | a clear changes only that room's strokes, and clearing twice equals clearing once |
| RoomStore.GlobalMemory.constructor | server/app/services/redis_services.py:13-15 | a new store is empty and has published nothing, with a positive room capacity |
| RoomStore.GlobalMemory.RoomExists | server/app/services/redis_services.py:27-31 | true exactly when the room's state key is stored. Under the store invariant no stored hash is empty, so this matches Redis `exists` |
| RoomStore.GlobalMemory.CreateRoom | server/app/services/redis_services.py:33-50 | stores the new-room hash under the room's key, returns the room id and the creator with score 0, publishes nothing |
| RoomStore.GlobalMemory.AddPlayer | server/app/services/redis_services.py:53-70 | at or over capacity: fails with 409 "Room is full" and changes nothing. Otherwise: appends the user at the end with no other field changed, returns the new list, and publishes exactly one ROOM_STATE with the new state. The count never exceeds capacity |
| RoomStore.GlobalMemory.RemovePlayer | server/app/services/redis_services.py:72-79 | stores and returns the players list without the given id; nothing else changes |
| RoomStore.GlobalMemory.AddStroke | server/app/services/redis_services.py:81-91 | missing room: fails with 404 "Room not found" and stores nothing. Otherwise: appends the stroke at the end and changes no other field |
| RoomStore.GlobalMemory.ClearStrokes | server/app/services/redis_services.py:93-97 | the store becomes the cleared store for the room's key |
| RoomStore.GlobalMemory.ClearCanvas | server/app/services/redis_services.py:99-104 | the same effect as clear_strokes |
| RoomStore.GlobalMemory.GetRoomState | server/app/services/redis_services.py:106-114 | None exactly when the room is missing (under the store invariant no stored hash is empty), otherwise the decoded view of its hash |
| RoomStore.GlobalMemory.PublishEvents | server/app/services/redis_services.py:116-119 | appends one publication on "room:<id>:events" and leaves the store alone |
| Logger.Upper | server/app/config/logger.py:21 | upper-casing keeps the length and maps each character by ASCII upper-casing |
| Logger.UpperIdempotent | server/app/config/logger.py:21 | upper-casing twice equals upper-casing once |
| Logger.UpperFixesUpperCase | server/app/config/logger.py:21 | a string without lower-case letters is unchanged |
| Logger.NormalizeLevel | server/app/config/logger.py:20-23 | the selected level is always a LEVEL_MAP key: the upper-cased argument when it is one, otherwise "ERROR" |
| Logger.ConfiguredLevel | server/app/config/logger.py:38 | the numeric level passed to basicConfig is always one of LEVEL_MAP's values |
| Logger.SelectionIgnoresCase | server/app/config/logger.py:21-23 | arguments that differ only in letter case select the same level |
| Logger.SelectionOfUpperCase | server/app/config/logger.py:21 | upper-casing the argument beforehand does not change the selection |
| Logger.KnownLevelsSelectThemselves | server/app/config/logger.py:12-23 | each of DEBUG, INFO, WARN and ERROR selects itself |
| Logger.NormalizeIdempotent | server/app/config/logger.py:21-23 | normalising a normalised level changes nothing |
| Logger.LowerCaseNameAccepted | server/app/config/logger.py:21-22 | "info" and "INFO" both select INFO |
| Logger.WarningFallsBack | server/app/config/logger.py:22-23 | "WARNING" is not a known name and falls back to ERROR |
| Logger.DefaultIsDebug | server/app/config/logger.py:20 | with no argument the level is DEBUG, numeric level 10 |
| Logger.LevelMapOrdered | server/app/config/logger.py:12-17 | LEVEL_MAP is injective, and DEBUG < INFO < WARN < ERROR in numeric level |

## Left out

- Canvas painting (`beginPath`, `stroke`, `clearRect`, style setting), the canvas sizing effect, `preventDefault` and `console.log` (client/components/CanvasBoard.tsx:16-20, 48-53, 58, 63-66, 77, 84, 86) are not modelled. They are rendering side effects.
- Canvas.GestureRecordsPoints: holds for handler calls made by one listener set, which is what the program has only until the tool first changes. The effect re-runs on every tool change (client/components/CanvasBoard.tsx:103). Each run attaches a new set of pointer listeners (91-98), and its cleanup detaches only the clear-canvas listener (100-102). After n tool changes every pointer event runs n+1 handlers: the newest `start` wins, and each move point is saved n+1 times. `Canvas.PiledListenersGesture` states this behaviour; see "## Findings".
- Canvas.GetPos: a touch event always carries at least one touch. Browsers guarantee this for touchstart and touchmove, the only touch events whose position is read. On an empty touch list the source would throw.
- Canvas.CanvasBoard: the in-progress stroke is a value, not a shared object. In the source the saved stroke and `currentStrokeRef` alias one object until `stop` sets the ref to null, so the aliasing is never observable.
- Coordinates and widths are reals. JavaScript floating-point rounding is not modelled.
- client/hooks/useRoomSocket.ts, the HTTP and WebSocket endpoints, and the UI components are not part of this model. They are network I/O and React state. CanvasBoard consumes no message. The room page uses a ROOM_STATE only for its players and chat (client/app/room/[id]/page.tsx:98-107), and it ignores the ROOM_STATE strokes and every DRAW_STROKE (the default branch at page.tsx:119-121). So the program has no stroke apply-remote or resync logic to model.
- RoomStore: the Redis client, `init`, `subscribe` and logging are not modelled. JSON encoding and decoding of the players and strokes fields is the identity on sequences. The integer fields `max_rounds` and `started` are kept as integers, not as the decimal text Redis stores.
- RoomStore.GlobalMemory.CreateRoom: the creator id, the first eight characters of a fresh `uuid4`, is a parameter. The capacity `MAX_PLAYERS_PER_ROOM` (5 in server/app/config.py) and `MAX_ROUNDS` are constructor parameters, since they are read from the environment.
- RoomStore.GlobalMemory.ClearCanvas: its constant response `{"sucess": True}` is not modelled.
- RoomStore.GlobalMemory: every method runs atomically. In the source each method awaits between its read and its write, so two concurrent `add_player` calls could both pass the capacity check. The capacity invariant holds only for calls that do not interleave.
- RoomStore.GlobalMemory.AddStroke: the server stores any JSON object as a stroke. The model stores the client's `Stroke` shape.
- Logger.Upper: only ASCII letters are upper-cased. Python's `str.upper` also maps some non-ASCII letters to ASCII (for example dotless `ı` to `I`), so such spellings select a known level in Python but fall back to ERROR here.
- The handler and formatter set-up of `configure_logging` and the `uvicorn.access` level are not modelled (server/app/config/logger.py:25-40). They are logging-library calls.

## Findings

| source | as written | input that shows it | evidently intended | confidence | as-written member | corrected member |
|---|---|---|---|---|---|---|
| client/components/CanvasBoard.tsx:89-103 | every run of the effect (on mount and on each tool change) attaches a new set of pointer listeners; the cleanup detaches only the clear-canvas listener, so earlier sets stay attached | mount with pencil, switch to eraser, then mousedown at p0, mousemove to p1, mouseup | one handler call per event, saving the stroke [p0, p1]; the program saves [p0, p1, p1] | high, not executed | Canvas.ToolSwitchDuplicatesPoints | Canvas.SingleListenerGesture |
