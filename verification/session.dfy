/**
 * The score-display client's session as a reducer: one immutable state
 * record (connection flag, socket handle, score snapshot) and a pure `Step`
 * that applies one socket callback or one click of the join button, and
 * reports what that callback did to the outside world.
 */
module Session {
  import opened Wrappers

  /** The score snapshot on screen. Every field is copied from the server
      unchecked, so scores are plain integers and may be negative. */
  datatype ScoreState = ScoreState(
    player1: string,
    player2: string,
    score1: int,
    score2: int,
    pset1: int,
    pset2: int,
    roomId: Option<string>)

  /** `ws` is true exactly when a socket handle is held (the handle is not null). */
  datatype State = State(isConnected: bool, ws: bool, score: ScoreState)

  /** A `type` discriminator other than `room_state`. */
  type OtherTag = t: string | t != "room_state" witness ""

  /** An inbound frame after JSON decoding; text that does not parse, or
      parses to `null`, is `Malformed`. */
  datatype Inbound =
    | RoomState(player1: string, player2: string,
                score1: int, score2: int,
                pset1: int, pset2: int,
                roomId: Option<string>)
    | OtherType(tag: OtherTag)
    | Malformed

  /** The socket callbacks and the join button's click handler. */
  datatype Event =
    | Opened
    | Closed
    | Errored
    | Message(msg: Inbound)
    | JoinClicked(roomKey: string)

  /** The only outbound frame: `{type: "join_room", roomId: ...}`. */
  datatype OutMsg = JoinRoom(roomId: string)

  datatype Alert = PleaseEnterRoomKey | NotConnectedToServer

  /** What one or more steps did besides changing the state: frames sent,
      alerts shown, reconnect timers scheduled (their delays in ms), and
      exceptions thrown out of a handler. */
  datatype Effects = Effects(sent: seq<OutMsg>, alerts: seq<Alert>, timers: seq<int>, thrown: nat)

  datatype Transition = Transition(next: State, fx: Effects)

  const ReconnectDelayMs: int := 5000

  const NoEffects := Effects([], [], [], 0)

  /** The snapshot shown before any `room_state` arrives. */
  const DefaultScore := ScoreState("Player 1", "Player 2", 0, 0, 0, 0, None)

  /** The state right after the component mounts. */
  const Init := State(false, false, DefaultScore)

  /** The `type` discriminator the frame is serialised with. */
  function OutType(m: OutMsg): string {
    match m
    case JoinRoom(_) => "join_room"
  }

  function AlertText(a: Alert): string {
    match a
    case PleaseEnterRoomKey => "Please enter room key"
    case NotConnectedToServer => "Not connected to server"
  }

  /** Effects of steps taken one after the other. */
  function Then(a: Effects, b: Effects): Effects {
    Effects(a.sent + b.sent, a.alerts + b.alerts, a.timers + b.timers, a.thrown + b.thrown)
  }

  /** An optional string is truthy in JavaScript when present and non-empty. */
  predicate Truthy(o: Option<string>) {
    o.Some? && o.value != ""
  }

  /** The scoreboard is shown instead of the join form exactly when this holds. */
  predicate Joined(sc: ScoreState) {
    Truthy(sc.roomId)
  }

  /** The invariant the handlers keep: connected exactly when a socket is held. */
  predicate Consistent(s: State) {
    s.isConnected == s.ws
  }

  /** The snapshot a `room_state` frame carries, field for field. */
  function SnapshotOf(m: Inbound): ScoreState
    requires m.RoomState?
  {
    ScoreState(m.player1, m.player2, m.score1, m.score2, m.pset1, m.pset2, m.roomId)
  }

  function OnOpen(s: State): (t: Transition)
    ensures Consistent(t.next) && t.next.isConnected
    ensures t.next.score == s.score
    ensures t.fx == NoEffects
  {
    Transition(s.(isConnected := true, ws := true), NoEffects)
  }

  function OnClose(s: State): (t: Transition)
    ensures Consistent(t.next) && !t.next.isConnected
    ensures t.next.score == s.score && Joined(t.next.score) == Joined(s.score)
    ensures t.fx.timers == [ReconnectDelayMs]
    ensures t.fx.sent == [] && t.fx.alerts == [] && t.fx.thrown == 0
  {
    Transition(s.(isConnected := false, ws := false), Effects([], [], [ReconnectDelayMs], 0))
  }

  function OnError(s: State): (t: Transition)
    ensures t.next == s && t.fx == NoEffects
  {
    Transition(s, NoEffects)
  }

  function OnMessage(s: State, m: Inbound): (t: Transition)
    ensures t.next.isConnected == s.isConnected && t.next.ws == s.ws
    ensures m.RoomState? ==> t.next.score == SnapshotOf(m)
    ensures m.RoomState? ==> (Joined(t.next.score) <==> Truthy(m.roomId))
    ensures !m.RoomState? ==> t.next == s
    ensures t.fx.sent == [] && t.fx.alerts == [] && t.fx.timers == []
    ensures t.fx.thrown == 1 <==> m.Malformed?
    ensures t.fx.thrown <= 1
  {
    match m
    case Malformed => Transition(s, NoEffects.(thrown := 1))
    case OtherType(_) => Transition(s, NoEffects)
    case RoomState(p1, p2, s1, s2, ps1, ps2, room) =>
      Transition(s.(score := ScoreState(p1, p2, s1, s2, ps1, ps2, room)), NoEffects)
  }

  function HandleJoinRoom(s: State, roomKey: string): (t: Transition)
    ensures t.next == s
    ensures t.fx.timers == [] && t.fx.thrown == 0
    ensures roomKey == "" ==> t.fx.alerts == [PleaseEnterRoomKey]
    ensures roomKey != "" && !s.isConnected ==> t.fx.alerts == [NotConnectedToServer]
    ensures t.fx.alerts == [] <==> roomKey != "" && s.isConnected
    ensures t.fx.sent != [] <==> roomKey != "" && s.isConnected && s.ws
    ensures t.fx.sent != [] ==> t.fx.sent == [JoinRoom(roomKey)]
  {
    if roomKey == "" then
      Transition(s, NoEffects.(alerts := [PleaseEnterRoomKey]))
    else if !s.isConnected then
      Transition(s, NoEffects.(alerts := [NotConnectedToServer]))
    else if s.ws then
      Transition(s, NoEffects.(sent := [JoinRoom(roomKey)]))
    else
      // optional chaining on a null handle sends nothing
      Transition(s, NoEffects)
  }

  /** Applies one event to the session. */
  function Step(s: State, e: Event): (t: Transition)
    ensures Consistent(s) ==> Consistent(t.next)
    ensures e.Opened? || e.Closed? || t.next.isConnected == s.isConnected
    ensures (e.Message? && e.msg.RoomState?) || t.next.score == s.score
  {
    match e
    case Opened => OnOpen(s)
    case Closed => OnClose(s)
    case Errored => OnError(s)
    case Message(m) => OnMessage(s, m)
    case JoinClicked(k) => HandleJoinRoom(s, k)
  }

  lemma InitialState()
    ensures Consistent(Init) && !Init.isConnected && !Init.ws
    ensures !Joined(Init.score) && Init.score.roomId.None?
    ensures Init.score.player1 == "Player 1" && Init.score.player2 == "Player 2"
    ensures Init.score.score1 == 0 && Init.score.score2 == 0
    ensures Init.score.pset1 == 0 && Init.score.pset2 == 0
  {
  }

  /** With a socket held, a non-empty key sends exactly one join frame and nothing else. */
  lemma JoinWhenConnected(s: State, roomKey: string)
    requires Consistent(s) && s.isConnected && roomKey != ""
    ensures Step(s, JoinClicked(roomKey)) == Transition(s, NoEffects.(sent := [JoinRoom(roomKey)]))
  {
  }

  /** No field of the previous snapshot survives a `room_state` frame. */
  lemma RoomStateReplacesWholesale(s1: State, s2: State, m: Inbound)
    requires m.RoomState?
    ensures Step(s1, Message(m)).next.score == Step(s2, Message(m)).next.score
  {
  }

  /** After two `room_state` frames the snapshot is the second one's. */
  lemma SecondRoomStateWins(s: State, m1: Inbound, m2: Inbound)
    requires m1.RoomState? && m2.RoomState?
    ensures Step(Step(s, Message(m1)).next, Message(m2)).next.score == SnapshotOf(m2)
  {
  }

  /** A dropped connection leaves a joined view joined. */
  lemma CloseKeepsJoined(s: State)
    requires Joined(s.score)
    ensures Joined(Step(s, Closed).next.score)
    ensures !Step(s, Closed).next.isConnected
  {
  }
}
