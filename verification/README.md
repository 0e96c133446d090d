# Boltalka session model

A Dafny model of the session logic of Boltalka, a single-page peer-to-peer
chat (`app.js`). One side creates a room and gets a six-character code; the
other side types the code, finds the creator's PeerJS id in an in-memory room
registry and dials it; once the data connection opens, text messages flow and
are kept in a log until the user leaves.

With the DOM and PeerJS stripped away, what remains is the `appState` record,
the `roomRegistry` map and a set of handlers that each run to completion. The
model writes them as one pure function

    Controller.Step(state, registry, event, now) -> Transition(state', registry', actions)

Files and modules:

- `basics.dfy` (`Basics`): `Option` for JavaScript `null`, timestamps, peer ids.
- `jsstring.dfy` (`JsString`): `String.prototype.trim` and `toUpperCase`, as the join form applies them.
- `roomcode.dfy` (`RoomCode`): the alphabet, `generateRoomCode` (from supplied draws), `validateRoomCode`.
- `registry.dfy` (`Rooms`): `window.roomRegistry` with register, lookup and delete.
- `session.dfy` (`Session`): the `appState` record, the message log, and the state parts of
  `addMessage`, `updateConnectionStatus` and `showScreen`.
- `controller.dfy` (`Controller`): events, outward actions, every handler, and `Step`.
- `properties.dfy` (`SessionProperties`): properties that relate handlers to each other and to invariants.

What becomes a parameter:

- `Math.random` becomes a `Draws` value: six indices, each in `[0, 36)`.
- The outcome of `initializePeer` is part of the create and join events. It is
  `PeerOpened(id)`, or `PeerErrored` (the endpoint emitted `error`), or
  `PeerThrew` (the `Peer` constructor threw before `appState.peer` was set).
- The id of the data connection that `peer.connect` returns, or that arrives
  through `peer.on('connection')`, is part of the event.
- The clock is the `now` argument of `Step`. Frame timestamps are carried as-is.
- Calls into PeerJS and the error banner become `Action`s: `ShowError`,
  `SendFrame`, `ConnectTo`, `CloseLink` and `DestroyPeer`.
- A PeerJS data connection is a `Link(id, open)`. The transport sets `open`
  to true just before it fires `open`, and to false just before it fires
  `close`. It changes only the flag of the current connection. The handlers
  themselves write `appState` whichever connection fired, just as the
  closures in `setupConnection` do.

Quirks of the code the model keeps:

- The connection `error` handler only shows a banner. It does not mark the
  session disconnected.
- `close` keeps `appState.connection`, now no longer open. It does not clear the link.
- `createRoom` writes the code and the host flag before it awaits the
  endpoint. `joinRoom` writes the code and the guest flag, once the code is
  found, before it awaits the endpoint. A failure leaves both written. So
  "idle iff no room code iff no link" is not an invariant of the code.
  `SessionProperties.FailedCreateKeepsCode` shows a state that breaks it.
- `joinRoom` trims and upper-cases the typed code itself before it validates it.

## Model

| member | source | states |
|---|---|---|
| JsString.TrimStartDropsLeadingRun | app.js:253 | `trim` drops exactly the leading run of JavaScript whitespace: the result is a suffix of the input, everything dropped is whitespace, and the result does not start with whitespace |
| JsString.TrimEndDropsTrailingRun | app.js:253 | the same for the trailing run: the result is a prefix, everything dropped is whitespace, and the result does not end with whitespace |
| JsString.TrimIsCoreSlice | app.js:116 | `text.trim()` is the slice of the input between its leading and trailing whitespace runs, and the slice neither starts nor ends with whitespace |
| JsString.TrimIdempotent | app.js:116 | trimming an already trimmed text changes nothing |
| JsString.ToUpperCaseLeavesNoLowercase | app.js:253 | `toUpperCase` leaves no letter a-z in its result |
| JsString.ToUpperCaseAppend | app.js:253 | upper-casing distributes over concatenation |
| JsString.ToUpperCasePointwise | app.js:253 | where every character upper-cases to one character, the result is the per-character upper case at each position |
| JsString.ToUpperCaseAscii | app.js:253 | on ASCII input, letters a-z become A-Z and every other character is kept |
| RoomCode.GenerateRoomCode | app.js:55-62 | the six-step loop builds the code whose k-th character is the alphabet symbol at the k-th draw, and that code passes `validateRoomCode` |
| RoomCode.ValidIffOverAlphabet | app.js:64-66 | `/^[A-Z0-9]{6}$/` accepts a string iff it has length 6 and every character is one of the 36 alphabet symbols |
| RoomCode.CodeCharInAlphabet | app.js:56-65 | every character of the class `[A-Z0-9]` is one of the generator's symbols |
| RoomCode.AlphabetMemberIsCodeChar | app.js:56-65 | every generator symbol belongs to the class `[A-Z0-9]` |
| RoomCode.AlphabetSymbolsAreCodeChars | app.js:56-59 | each alphabet symbol matches `[A-Z0-9]`, and the symbol at index i sits at index i of the class order A-Z then 0-9 |
| RoomCode.GeneratedCodesAreValid | app.js:55-66 | every code generated from any draws in `[0, 36)` passes validation |
| RoomCode.ValidCodesAreGenerated | app.js:55-66 | every valid code is produced by some draws, so generation reaches the whole code space |
| RoomCode.GenerationInjective | app.js:55-62 | different draws give different codes; with the previous row, generation is a one-to-one correspondence between draws and valid codes, so uniform draws give uniformly distributed codes |
| RoomCode.ValidCodeIsNormal | app.js:253-255 | a valid code is unchanged by the join form's trim and upper-case |
| Rooms.Register | app.js:232 | storing a room adds its code to the keys, maps the code to the new record whatever was there, and keeps every other entry |
| Rooms.Lookup | app.js:262-264 | reading a code finds a record exactly when the code is a key, and then it finds that key's record |
| Rooms.Unregister | app.js:305-307 | deleting removes exactly that key and keeps every other entry |
| Rooms.LookupAfterRegister | app.js:232-262 | a lookup right after registering finds the new record for its code and the old answer for every other code |
| Rooms.LookupAfterUnregister | app.js:262-307 | a lookup after deleting a code misses it and finds every other code as before |
| Rooms.UnregisterIdempotent | app.js:305-307 | deleting a code twice is deleting it once |
| Rooms.RegistryOpsPreserveWellFormed | app.js:227-232 | registering a record under a valid code, and deleting, keep every entry filed under its own valid code |
| Session.AddMessage | app.js:90-94 | `addMessage` grows the log by exactly one message at its end, keeps every earlier entry, and changes nothing else |
| Controller.InitializePeer | app.js:152-182 | the endpoint is held afterwards unless its constructor threw; the peer id is the endpoint's id once it opened and is unchanged otherwise; nothing else changes |
| Controller.CreateRoom | app.js:218-249 | the code is the one drawn and the host flag is set, whether or not the endpoint comes up; on success the registry maps the code to the new peer id (overwriting an old entry), every other code is untouched, and the screen is room-created; on failure the registry, screen and peer id are unchanged, the endpoint is held iff it was held before or the endpoint errored (rather than its constructor throwing), and an error is shown; the log, connection and status never change |
| Controller.JoinRoom | app.js:252-292 | an input that fails validation after trim and upper-case shows an error and changes neither state nor registry; a valid unknown code does the same with a not-found error; a known code sets the code and the guest flag; then, when the endpoint opens, the page is connecting, holds a new unopened connection, dials the host's peer id, shows the chat and logs one notice; when it fails, the peer id, log, status, connection and screen stay, the endpoint is held iff it was held before or the endpoint errored, and an error is shown |
| Controller.SendMessage | app.js:115-131 | blank input changes nothing and calls nothing; with an open connection, exactly one own message with the trimmed text is appended and one frame with that text is sent; otherwise the log is unchanged and a not-connected error is shown |
| Controller.LeaveRoom | app.js:295-324 | the state returns to the initial one; a registry key disappears iff this page is the host and that key is its room code, and every other entry keeps its record; the only actions are closing the connection, exactly when one is held, and destroying the endpoint, exactly when one is held |
| Controller.AcceptLink | app.js:239-242 | an incoming connection becomes the current one, not yet open; nothing else changes |
| Controller.LinkOpen | app.js:187-196 | `open` marks the page connected, appends exactly one system notice, ends on the chat screen, marks the connection open when it is the current one, and keeps the room code, host flag, peer id and registry |
| Controller.LinkReceive | app.js:198-203 | a frame of type `message` appends exactly one message from the other side, carrying the frame's text and timestamp; any other frame leaves the log unchanged; nothing else changes |
| Controller.LinkClose | app.js:205-209 | `close` marks the page disconnected and appends exactly one system notice; it keeps the room code, host flag, screen, peer id and endpoint; when the closing connection is the current one it stays held but is no longer open, and otherwise the current connection is unchanged |
| Controller.LinkError | app.js:211-214 | a connection `error` leaves state and registry unchanged and only shows an error |
| Controller.PeerDisconnect | app.js:172-175 | the endpoint's `disconnected` event sets the status to disconnected and changes nothing else |
| SessionProperties.InitialSatisfiesInvariant | app.js:2-16 | the initial state and the empty registry satisfy the invariants |
| SessionProperties.StepPreservesInvariant | app.js:218-307 | every handler keeps a stored room code valid and a known peer id backed by an endpoint, and keeps every registry entry under its own valid code |
| SessionProperties.RoomCodeTruthiness | app.js:305 | in reachable states the test `appState.myRoomCode` in `leaveRoom` is exactly "a code is stored" |
| SessionProperties.LeaveRoomIdempotent | app.js:295-324 | leaving a second time changes neither state nor registry and calls nothing |
| SessionProperties.LeaveWhenIdleIsNoOp | app.js:295-324 | leaving from the initial state is a no-op |
| SessionProperties.InvalidJoinIgnoresRegistry | app.js:253-258 | a rejected code gives the same state and actions whatever the registry holds, so the registry is not read |
| SessionProperties.CreatedRoomIsFound | app.js:218-286 | after a host creates a room, any input that trims and upper-cases to its code finds the host's record and makes the guest dial the host's peer id |
| SessionProperties.CreateThenLeaveUnregisters | app.js:218-307 | creating and then leaving a room leaves the registry as it was, minus that code |
| SessionProperties.FailedCreateKeepsCode | app.js:220-307 | a failed create leaves a room code and the host flag set with no registry entry and no connection, but with the failed endpoint held, so a later leave destroys it |
| SessionProperties.SendReceiveRoundTrip | app.js:115-131 | the frame one side sends, received by the other, adds exactly one message with the same text there, and the sender logs exactly one own message |
| SessionProperties.SendAfterCloseRefused | app.js:205-209 | after the current connection closes, the room and host flag are kept, and sending is refused with no new log entry |
| SessionProperties.StepLogDiscipline | app.js:90-94 | every handler but `leaveRoom` keeps the log as a prefix and adds at most one message; `leaveRoom` empties it |
| SessionProperties.StepRegistryFrame | app.js:232-306 | only creating and leaving a room write the registry |
| SessionProperties.PaddedInputNormalizes | app.js:253 | " ab12xy\n" is read as AB12XY |
| SessionProperties.LowerCodeNormalizes | app.js:253-255 | "ab12xy" is read as the valid code AB12XY |
| SessionProperties.DotlessINormalizes | app.js:253 | six dotless i's are read as IIIIII |
| SessionProperties.InnerSpaceRejected | app.js:253-255 | a space inside the code survives trimming and makes the code invalid |
| SessionProperties.HostCreatesRoom | app.js:218-244 | draws 0, 1, 27, 28, 23, 24 give room AB12XY, registered under the host's id, with the host waiting on the room-created screen |
| SessionProperties.GuestJoinsRoom | app.js:252-286 | typing "ab12xy" joins that room: the guest is connecting on the chat screen with one notice and dials the host |
| SessionProperties.HappyPath | app.js:187-286 | for any room: create, join by the typed code, accept, and open on both sides leave both pages connected on the chat screen with one "connected" notice each, and the guest dialled the host's id |
| SessionProperties.RoomNotFoundScenario | app.js:262-267 | joining ZZZZZZ with an empty registry shows a not-found error and leaves the initial state |

## Left out

- DOM work is left out: `showScreen`'s classes, `displayMessage`, the status text and CSS, input clearing and the room code labels. Only `currentScreen` and `connectionStatus` are kept.
- The text of each `showError` message is left out; the model keeps only which call site raised it (`ErrorKind`). The banner's `setTimeout` clearing is also left out.
- PeerJS is left out: creating the `Peer`, the STUN configuration, `peer.connect`, `send`, `close` and `destroy`. These are foreign calls, modelled as event parameters and `Action`s.
- Interleaving inside `createRoom` and `joinRoom` is not modelled. Each call is one atomic step, with the endpoint's outcome as a parameter. Other events that arrive while the endpoint is being awaited, and a late `error` from an already-open endpoint (a no-op in the source), are not modelled.
- `window.roomRegistry` belongs to one browser window, so in the source only a page in the same tab can find a room. The scenario lemmas (`SessionProperties.CreatedRoomIsFound`, `SessionProperties.HappyPath`) hand the host's registry to a second page state. That treats the registry as shared between two sessions, which is a modelling assumption and not something the source provides.
- The `close` handler that `connection.close()` runs during `leaveRoom` is not applied. PeerJS fires `close` synchronously inside that call, and only when the connection was open. Its notice and status write land before the reset, which discards the log and sets the status to disconnected anyway, so `LeaveRoom` gives the net result. This is an assumption about PeerJS, which is not part of this model.
- `Step` accepts every event in every state. Which events PeerJS can actually deliver in a given state is not modelled.
- Each create or join builds a new `Peer`, and the old one is not destroyed. The model keeps only whether some endpoint is held, so it does not track the handlers of older endpoints.
- JsString.ToUpperCase: covers ASCII letters, plus the characters whose upper case is entirely ASCII (ı, ſ, ß and the ligatures U+FB00 to U+FB06). Every other character is kept unchanged. Unicode upper-cases such a character to text that still holds a non-ASCII character, so it fails validation either way. The validation outcome, and any code that passes, are therefore the same as in the source.
- Frames that are not objects, or whose `text` is not a string, are left out. The model's frames always carry a string `text` and a timestamp. Turning the ISO timestamp into a `Date` is also left out.
- An exception thrown synchronously by `peer.connect` inside `joinRoom` is left out. It would end in the same error banner as a failed endpoint, but after the status and the room code were written.
- `formatTime`, `Date.now()` and `console.log` are left out; the clock is the `now` argument.
- The `confirm` dialog before leaving is left out; `LeaveConfirmed` is the confirmed click. The clipboard handlers are left out as browser UI.
