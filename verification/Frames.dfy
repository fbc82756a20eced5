/** Function calls on the stack: frames are pushed and popped, and are well bracketed. */
module Frames {
  import opened Values

  /** The stack, the trees its slots denote, and where the current frame begins. */
  datatype FrameState = FrameState(stack: seq<Value>, slots: seq<Tree>, boundary: nat)

  datatype Event = Call | Return | Local

  /** A frame was pushed: everything below is as before, and the new frame remembers the boundary. */
  ghost predicate Calls(s: FrameState, s': FrameState) {
    && s'.boundary == |s.stack| == |s.slots| && |s.stack| < |s'.stack| == |s'.slots|
    && s'.stack[..|s.stack|] == s.stack && s'.slots[..|s.stack|] == s.slots
    && s'.stack[|s.stack|] == PrevStackBoundary(s.boundary)
  }

  /** The frame was popped, going back to the boundary it remembers. */
  ghost predicate Returns(s: FrameState, s': FrameState) {
    && s.boundary < |s.stack| == |s.slots| && s.stack[s.boundary] == PrevStackBoundary(s'.boundary)
    && s'.stack == s.stack[..s.boundary] && s'.slots == s.slots[..s.boundary]
  }

  /** Only slots above the boundary may have changed. */
  ghost predicate StaysInFrame(s: FrameState, s': FrameState) {
    && s'.boundary == s.boundary < |s.stack| == |s.slots| && s.boundary < |s'.stack| == |s'.slots|
    && s'.stack[..s.boundary + 1] == s.stack[..s.boundary + 1] && s'.slots[..s.boundary + 1] == s.slots[..s.boundary + 1]
  }

  ghost predicate Steps(s: FrameState, e: Event, s': FrameState) {
    match e
    case Call => Calls(s, s')
    case Return => Returns(s, s')
    case Local => StaysInFrame(s, s')
  }

  function Depth(events: seq<Event>): int {
    if events == [] then 0
    else Depth(events[..|events| - 1]) + match events[|events| - 1] { case Call => 1 case Return => -1 case Local => 0 }
  }

  ghost predicate IsRun(states: seq<FrameState>, events: seq<Event>) {
    |states| == |events| + 1 && forall k | 0 <= k < |events| :: Steps(states[k], events[k], states[k + 1])
  }

  /** Below `depth` frames lies exactly the state `base`. */
  ghost predicate Above(base: FrameState, s: FrameState, depth: nat)
    decreases depth
  {
    if depth == 0 then s == base
    else
      && s.boundary < |s.stack| == |s.slots|
      && s.stack[s.boundary].PrevStackBoundary? && s.stack[s.boundary].boundary >= 0
      && Above(base, FrameState(s.stack[..s.boundary], s.slots[..s.boundary], s.stack[s.boundary].boundary), depth - 1)
  }

  lemma StepAbove(base: FrameState, s: FrameState, e: Event, s': FrameState, depth: nat)
    requires Steps(s, e, s') && Above(base, s, depth) && (depth == 0 ==> e == Call)
    ensures match e
      case Call => Above(base, s', depth + 1)
      case Return => Above(base, s', depth - 1)
      case Local => Above(base, s', depth)
  {
    match e
    case Call =>
      assert FrameState(s'.stack[..s'.boundary], s'.slots[..s'.boundary], s'.stack[s'.boundary].boundary) == s;
    case Return =>
      assert FrameState(s.stack[..s.boundary], s.slots[..s.boundary], s.stack[s.boundary].boundary) == s';
    case Local =>
      var b := s.boundary;
      assert s'.stack[..b + 1][..b] == s'.stack[..b] && s.stack[..b + 1][..b] == s.stack[..b];
      assert s'.slots[..b + 1][..b] == s'.slots[..b] && s.slots[..b + 1][..b] == s.slots[..b];
      assert s'.stack[b] == s'.stack[..b + 1][b] && s.stack[b] == s.stack[..b + 1][b];
  }

  /** From the call on, the caller's part of the stack lies untouched below the frames of its callees. */
  lemma {:induction false} CallerUntouched(states: seq<FrameState>, events: seq<Event>, k: nat)
    requires IsRun(states, events) && 1 <= k <= |events| && events[0] == Call
    requires forall j | 1 <= j < k :: Depth(events[..j]) >= 1
    ensures Depth(events[..k]) >= 0 && Above(states[0], states[k], Depth(events[..k]))
    decreases k
  {
    hide Above, Steps;
    assert events[..k][..k - 1] == events[..k - 1] && events[..k][k - 1] == events[k - 1];
    if k == 1 {
      assert events[..0] == [];
      AboveItself(states[0]);
      assert Steps(states[0], events[0], states[0 + 1]);
      StepAbove(states[0], states[0], Call, states[1], 0);
    } else {
      CallerUntouched(states, events, k - 1);
      assert Steps(states[k - 1], events[k - 1], states[k - 1 + 1]);
      StepAbove(states[0], states[k - 1], events[k - 1], states[k], Depth(events[..k - 1]));
    }
  }

  lemma AboveItself(s: FrameState)
    ensures Above(s, s, 0)
  {
  }

  /** Calls are well bracketed to any nesting depth: when the callee has returned, the caller's stack, what
      its slots denote and its boundary are exactly as before the call. */
  lemma WellBracketed(states: seq<FrameState>, events: seq<Event>)
    requires IsRun(states, events) && events != [] && events[0] == Call
    requires Depth(events) == 0 && forall j | 1 <= j < |events| :: Depth(events[..j]) >= 1
    ensures states[|events|] == states[0]
  {
    assert events[..|events|] == events;
    CallerUntouched(states, events, |events|);
  }
}
