# Badminton score stream: session model

This project models the client side of the badminton score stream: the single
React component that opens a WebSocket to the live-scoring server, reconnects
after a drop, sends a `join_room` request when the user clicks "Join Room",
and replaces its score snapshot whenever a `room_state` frame arrives. The
component's callbacks are recast as a pure reducer.

- `wrappers.dfy` — `Option`, for the optional `roomId` field.
- `session.dfy` — module `Session`: the state record (`isConnected`, whether
  a socket handle `ws` is held, the `ScoreState` snapshot), the decoded inbound
  frame (`RoomState`, `OtherType` with a tag other than `room_state`,
  `Malformed`), the events (`Opened`,
  `Closed`, `Errored`, `Message`, `JoinClicked`), the effects a step has
  (frames sent, alerts shown, reconnect timers scheduled, exceptions thrown),
  one function per handler and `Step`, which dispatches an event to its
  handler. `Joined` is the test that picks the scoreboard over the join form:
  `roomId` present and non-empty, as JavaScript truthiness has it.
  `Consistent` is the invariant `isConnected == ws`.
- `replay.dfy` — module `Replay`: `Run` applies a sequence of events. It also
  gives independent descriptions of where a run ends up. `LastLifecycle` is
  the last open or close event. `LastSnapshot` is the last `room_state`
  frame. `Count` counts events of one kind. The lemmas connect `Run` to these
  descriptions. `RunAppend` is the fold law for `Run`: running two sequences
  one after the other is running their concatenation, with the effects
  concatenated in order.

The model follows the code as written:

- A close does not reset the snapshot, so a joined view stays joined after a
  drop.
- An error event only logs. It schedules no reconnect.
- A malformed frame makes `JSON.parse` throw before any state update. The
  model records one thrown exception and leaves the state unchanged.
- There is no `Connecting` state, only the boolean `isConnected`.
- The fields of a `room_state` frame are not validated. Scores are `int`,
  not `nat`, and a later frame may change `roomId` or remove it.
- Every close schedules its own reconnect timer. Nothing deduplicates timers,
  and teardown cancels none.

## Model

| member | source | states |
|---|---|---|
| `Session.InitialState` | src/App.tsx:15-25 | The session starts disconnected with no socket held, which satisfies the invariant. The snapshot is "Player 1"/"Player 2" with every score and set count 0 and no room id, so the view is not joined. |
| `Session.OnOpen` | src/App.tsx:31-34 | Opening marks the session connected and holds the socket together, so the invariant holds afterwards. The snapshot is untouched and nothing is sent, shown or scheduled. |
| `Session.OnClose` | src/App.tsx:36-41 | Closing marks the session disconnected and drops the socket together. It schedules exactly one reconnect after 5000 ms and sends and shows nothing. The snapshot survives, so joined stays joined. |
| `Session.OnError` | src/App.tsx:43-45 | An error event changes no state and has no effect: no reconnect is scheduled. |
| `Session.OnMessage` | src/App.tsx:47-62 | A `room_state` frame replaces the snapshot with the frame's seven fields. Afterwards the view is joined exactly when the frame's room id is present and non-empty. Any other type leaves the whole state unchanged, and so does a malformed frame, which throws exactly one exception. A frame never changes the connection or sends anything. |
| `Session.HandleJoinRoom` | src/App.tsx:76-91 | A join never changes the state. An empty key shows "Please enter room key" whatever the connection state, because that check comes first. A non-empty key while disconnected shows "Not connected to server". No alert is shown exactly when the key is non-empty and the session is connected. A frame is sent exactly when, in addition, a socket is held, and it is then the single frame `join_room` with that key. |
| `Session.Step` | src/App.tsx:27-91 | Every event preserves the invariant that the session is connected exactly when a socket is held. Only open and close change the connection flag. Only a `room_state` frame changes the snapshot. |
| `Session.JoinWhenConnected` | src/App.tsx:87-90 | In a state that satisfies the invariant and is connected, a non-empty key sends exactly one `join_room` frame carrying the key. The state is unchanged, no alert is shown and no timer is scheduled. |
| `Session.RoomStateReplacesWholesale` | src/App.tsx:51-60 | The snapshot after a `room_state` frame does not depend on the snapshot before it: no old field survives. |
| `Session.SecondRoomStateWins` | src/App.tsx:51-60 | After two `room_state` frames the snapshot equals the second frame's. |
| `Session.CloseKeepsJoined` | src/App.tsx:36-41 | A joined view is still joined after the connection closes, and the session is then disconnected. |
| `Replay.RunPreservesConsistent` | src/App.tsx:31-38 | From a state where connected equals socket held, every event sequence keeps that invariant. |
| `Replay.RunConnection` | src/App.tsx:31-38 | After a run, the session is connected exactly when the last open or close event was an open. With neither event, the flag is the starting one. |
| `Replay.RunSnapshot` | src/App.tsx:51-60 | After a run, the snapshot is the last `room_state` frame's, or the starting snapshot if there was none. |
| `Replay.LastRoomStateWins` | src/App.tsx:51-60 | The last `room_state` frame of a run determines the snapshot whatever follows it. The view is then joined exactly when that frame's room id is present and non-empty. |
| `Replay.SnapshotSurvivesWithoutRoomState` | src/App.tsx:36-62 | A run without `room_state` frames leaves the snapshot and the joined status as they were. Closes, errors, unknown types and malformed frames do not change them. |
| `Replay.RunTimers` | src/App.tsx:36-41 | A run schedules one reconnect timer per close event and no others. Each timer's delay is 5000 ms. |
| `Replay.RunThrown` | src/App.tsx:47-48 | A run throws exactly once per malformed frame. |
| `Replay.RunSent` | src/App.tsx:76-91 | A run sends at most one frame per join click with a non-empty key. Every frame sent carries a non-empty key that some join click of the run supplied. |
| `Replay.NoSendWhileDisconnected` | src/App.tsx:82-85 | From a disconnected state, a run without an open event sends nothing and stays disconnected. |
| `Replay.EveryJoinAnswered` | src/App.tsx:76-91 | From a state that satisfies the invariant, each join click yields exactly one sent frame or exactly one alert. |

## Left out

- Rendering, CSS classes and icons (src/App.tsx:93-167) are presentation. Only the joined test at line 95 is kept, as `Session.Joined`.
- The browser WebSocket object, the fixed endpoint and the real `setTimeout` (src/App.tsx:29, 40) are not modelled as I/O. The socket's callbacks are the events `Opened`, `Closed`, `Errored` and `Message`. A scheduled reconnect is an entry in the effects' timer list. What a fired timer does is simply a later `Opened` or `Closed` event.
- JSON parsing and serialisation (src/App.tsx:48, 87) are abstracted. Inbound text arrives already decoded as `Inbound`, and text that does not parse is `Malformed`. A parse that yields `null`, so that reading `type` throws, is also represented as `Malformed`. Any other non-object (a number, string, boolean or array) has no `type`, is ignored without throwing, and is represented as an `OtherType` frame. The outbound frame is the value `JoinRoom(key)`, serialised with type tag `join_room`.
- Session.OnMessage: the decoded `RoomState` fixes field types (strings for names, integers for scores). The code copies whatever JSON values the frame holds, including missing ones and non-integer numbers, and the model does not represent those.
- `console.log`, `console.error` and the contents of `alert` dialogs are not modelled as I/O. An alert is a tag, and `AlertText` gives its message.
- The effect cleanup (src/App.tsx:69-73) is not modelled. It closes only the first socket, and only if that socket is open. It cancels no timer, so the model makes no claim that reconnects stop after teardown or that at most one timer is pending.
- The room key input field (src/App.tsx:15, 102-109) is represented only by the key a `JoinClicked` event carries. The disabled state of the button (src/App.tsx:113) is presentation: the model still lets a click arrive while disconnected, as the handler itself allows.
