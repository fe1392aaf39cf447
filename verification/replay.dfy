/**
 * The session run over a whole sequence of events, and independent
 * descriptions of where the run ends up: the connection flag follows the
 * last open/close, the snapshot follows the last `room_state` frame.
 */
module Replay {
  import opened Wrappers
  import opened Session

  /** Applies the events in order, collecting every step's effects. */
  function Run(s: State, es: seq<Event>): Transition
    decreases |es|
  {
    if es == [] then Transition(s, NoEffects)
    else
      var prev := Run(s, es[..|es| - 1]);
      var last := Step(prev.next, es[|es| - 1]);
      Transition(last.next, Then(prev.fx, last.fx))
  }

  /** How many events satisfy `p`. */
  function Count(es: seq<Event>, p: Event -> bool): nat
    decreases |es|
  {
    if es == [] then 0
    else Count(es[..|es| - 1], p) + (if p(es[|es| - 1]) then 1 else 0)
  }

  predicate IsClose(e: Event) {
    e.Closed?
  }

  predicate IsMalformed(e: Event) {
    e.Message? && e.msg.Malformed?
  }

  predicate IsKeyedJoin(e: Event) {
    e.JoinClicked? && e.roomKey != ""
  }

  predicate IsJoin(e: Event) {
    e.JoinClicked?
  }

  predicate IsRoomState(e: Event) {
    e.Message? && e.msg.RoomState?
  }

  /** `Some(true)` if the last open/close event is an open, `Some(false)` if
      it is a close, `None` if there is neither. */
  function LastLifecycle(es: seq<Event>): Option<bool>
    decreases |es|
  {
    if es == [] then None
    else match es[|es| - 1]
      case Opened => Some(true)
      case Closed => Some(false)
      case _ => LastLifecycle(es[..|es| - 1])
  }

  /** The snapshot of the last `room_state` frame, if any. */
  function LastSnapshot(es: seq<Event>): Option<ScoreState>
    decreases |es|
  {
    if es == [] then None
    else if IsRoomState(es[|es| - 1]) then Some(SnapshotOf(es[|es| - 1].msg))
    else LastSnapshot(es[..|es| - 1])
  }

  lemma {:induction false} RunPreservesConsistent(s: State, es: seq<Event>)
    requires Consistent(s)
    ensures Consistent(Run(s, es).next)
    decreases |es|
  {
    if es != [] {
      RunPreservesConsistent(s, es[..|es| - 1]);
    }
  }

  lemma {:induction false} RunConnection(s: State, es: seq<Event>)
    ensures Run(s, es).next.isConnected == LastLifecycle(es).GetOr(s.isConnected)
    decreases |es|
  {
    if es != [] {
      RunConnection(s, es[..|es| - 1]);
    }
  }

  lemma {:induction false} RunSnapshot(s: State, es: seq<Event>)
    ensures Run(s, es).next.score == LastSnapshot(es).GetOr(s.score)
    decreases |es|
  {
    if es != [] {
      RunSnapshot(s, es[..|es| - 1]);
    }
  }

  lemma {:induction false} RunTimers(s: State, es: seq<Event>)
    ensures |Run(s, es).fx.timers| == Count(es, IsClose)
    ensures forall i :: 0 <= i < |Run(s, es).fx.timers| ==> Run(s, es).fx.timers[i] == ReconnectDelayMs
    decreases |es|
  {
    if es != [] {
      RunTimers(s, es[..|es| - 1]);
    }
  }

  lemma {:induction false} RunThrown(s: State, es: seq<Event>)
    ensures Run(s, es).fx.thrown == Count(es, IsMalformed)
    decreases |es|
  {
    if es != [] {
      RunThrown(s, es[..|es| - 1]);
    }
  }

  lemma {:induction false} RunSent(s: State, es: seq<Event>)
    ensures |Run(s, es).fx.sent| <= Count(es, IsKeyedJoin)
    ensures forall i :: 0 <= i < |Run(s, es).fx.sent| ==>
      Run(s, es).fx.sent[i].roomId != "" && JoinClicked(Run(s, es).fx.sent[i].roomId) in es
    decreases |es|
  {
    if es != [] {
      var init := es[..|es| - 1];
      RunSent(s, init);
      assert es == init + [es[|es| - 1]];
    }
  }

  lemma {:induction false} NoSendWhileDisconnected(s: State, es: seq<Event>)
    requires !s.isConnected && Opened !in es
    ensures Run(s, es).fx.sent == []
    ensures !Run(s, es).next.isConnected
    decreases |es|
  {
    if es != [] {
      var init := es[..|es| - 1];
      assert es == init + [es[|es| - 1]];
      NoSendWhileDisconnected(s, init);
    }
  }

  lemma {:induction false} LastSnapshotAfter(pre: seq<Event>, m: Inbound, post: seq<Event>)
    requires m.RoomState?
    requires forall i :: 0 <= i < |post| ==> !IsRoomState(post[i])
    ensures LastSnapshot(pre + [Message(m)] + post) == Some(SnapshotOf(m))
    decreases |post|
  {
    var es := pre + [Message(m)] + post;
    if post == [] {
      assert es[|es| - 1] == Message(m);
    } else {
      var init := post[..|post| - 1];
      assert es[..|es| - 1] == pre + [Message(m)] + init;
      assert es[|es| - 1] == post[|post| - 1];
      LastSnapshotAfter(pre, m, init);
    }
  }

  /** The snapshot after a run is the last `room_state` frame's, and the
      view is joined exactly when that frame's room id is truthy. */
  lemma LastRoomStateWins(s: State, pre: seq<Event>, m: Inbound, post: seq<Event>)
    requires m.RoomState?
    requires forall i :: 0 <= i < |post| ==> !IsRoomState(post[i])
    ensures Run(s, pre + [Message(m)] + post).next.score == SnapshotOf(m)
    ensures Joined(Run(s, pre + [Message(m)] + post).next.score) <==> Truthy(m.roomId)
  {
    LastSnapshotAfter(pre, m, post);
    RunSnapshot(s, pre + [Message(m)] + post);
  }

  /** Without a `room_state` frame, nothing a run does touches the snapshot,
      so a joined view stays joined across drops and reconnects. */
  lemma SnapshotSurvivesWithoutRoomState(s: State, es: seq<Event>)
    requires forall i :: 0 <= i < |es| ==> !IsRoomState(es[i])
    ensures Run(s, es).next.score == s.score
    ensures Joined(Run(s, es).next.score) == Joined(s.score)
  {
    NoRoomStateNoSnapshot(es);
    RunSnapshot(s, es);
  }

  lemma {:induction false} NoRoomStateNoSnapshot(es: seq<Event>)
    requires forall i :: 0 <= i < |es| ==> !IsRoomState(es[i])
    ensures LastSnapshot(es) == None
    decreases |es|
  {
    if es != [] {
      NoRoomStateNoSnapshot(es[..|es| - 1]);
    }
  }

  /** From a consistent state every join click is answered by exactly one
      frame sent or exactly one alert, never both and never neither. */
  lemma {:induction false} EveryJoinAnswered(s: State, es: seq<Event>)
    requires Consistent(s)
    ensures |Run(s, es).fx.sent| + |Run(s, es).fx.alerts| == Count(es, IsJoin)
    decreases |es|
  {
    if es != [] {
      var init := es[..|es| - 1];
      EveryJoinAnswered(s, init);
      RunPreservesConsistent(s, init);
    }
  }

  /** Running two event sequences back to back is running their concatenation. */
  lemma {:induction false} RunAppend(s: State, a: seq<Event>, b: seq<Event>)
    ensures Run(s, a + b).next == Run(Run(s, a).next, b).next
    ensures Run(s, a + b).fx == Then(Run(s, a).fx, Run(Run(s, a).next, b).fx)
    decreases |b|
  {
    if b == [] {
      assert a + b == a;
    } else {
      var init := b[..|b| - 1];
      assert (a + b)[..|a + b| - 1] == a + init;
      assert (a + b)[|a + b| - 1] == b[|b| - 1];
      RunAppend(s, a, init);
      var mid := Run(s, a);
      var rest := Run(mid.next, init);
      var last := Step(rest.next, b[|b| - 1]);
      ThenAssociative(mid.fx, rest.fx, last.fx);
    }
  }

  lemma ThenAssociative(x: Effects, y: Effects, z: Effects)
    ensures Then(Then(x, y), z) == Then(x, Then(y, z))
  {
  }
}
