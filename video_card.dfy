/** The swipe gesture of one pitch card (src/components/VideoCard.tsx).

    The card keeps four pieces of state: whether a gesture is in progress,
    where it started, how far it has moved and the direction that move shows.
    Pressing starts a gesture, moving updates the offset and its direction,
    releasing decides the swipe and resets the card. The state changes are
    written once as functions on a `GestureState` value; the `VideoCard`
    class holds the four fields and its handlers are proved to follow those
    functions. */
module Card {
  import opened Wrappers
  import opened Types

  /** Commit threshold of a release (`SWIPE_THRESHOLD`). */
  const SwipeThreshold: int := 100
  /** Offset beyond which a move shows a direction. */
  const DirectionThreshold: int := 50

  /** What `onSwipe` is called with. */
  datatype SwipeDecision = SwipeDecision(direction: SwipeDirection, videoId: string)

  /** The four state fields of the card. */
  datatype GestureState = GestureState(
    swiping: bool,
    startX: int,
    offsetX: int,
    swipeDirection: SwipeDirection)

  /** The state a card is created in. */
  const Idle: GestureState := GestureState(false, 0, 0, Neutral)

  function Abs(x: int): (r: nat)
  {
    if x < 0 then -x else x
  }

  // ---------------------------------------------------------------------
  // Gesture tracker and swipe resolver
  // ---------------------------------------------------------------------

  /** The direction a move of `diff` shows. */
  function Classify(diff: int): (d: SwipeDirection)
    ensures d == Right <==> diff > DirectionThreshold
    ensures d == Left <==> diff < -DirectionThreshold
    ensures d == Neutral <==> Abs(diff) <= DirectionThreshold
  {
    if diff > 50 then Right
    else if diff < -50 then Left
    else Neutral
  }

  /** The decision a release at offset `offsetX` reports for the card `videoId`. */
  function Resolve(offsetX: int, videoId: string): (r: Option<SwipeDecision>)
    ensures r.Some? <==> Abs(offsetX) > SwipeThreshold
    ensures r.Some? ==> r.value.videoId == videoId && r.value.direction != Neutral
    ensures r.Some? ==> (r.value.direction == Right <==> offsetX > 0)
    ensures r.Some? ==> (r.value.direction == Left <==> offsetX < 0)
  {
    if Abs(offsetX) > SwipeThreshold then
      Some(SwipeDecision(if offsetX > 0 then Right else Left, videoId))
    else
      None
  }

  /** Touch start or mouse down at `x`. */
  function Press(s: GestureState, x: int): (r: GestureState)
    ensures r.swiping && r.startX == x
    ensures r.offsetX == s.offsetX && r.swipeDirection == s.swipeDirection
  {
    s.(startX := x, swiping := true)
  }

  /** Touch move or mouse move to `x`. */
  function Move(s: GestureState, x: int): (r: GestureState)
    ensures !s.swiping ==> r == s
    ensures s.swiping ==> r.swiping && r.startX == s.startX && r.offsetX == x - s.startX
    ensures s.swiping ==> r.swipeDirection == Classify(r.offsetX)
  {
    if !s.swiping then s
    else
      var diff := x - s.startX;
      s.(offsetX := diff, swipeDirection := Classify(diff))
  }

  /** The state after touch end, mouse up or mouse leave. The start position is
      left as it was; every other field goes back to neutral. */
  function Release(s: GestureState): (r: GestureState)
    ensures !r.swiping && r.offsetX == 0 && r.swipeDirection == Neutral
    ensures r.startX == s.startX
  {
    GestureState(false, s.startX, 0, Neutral)
  }

  // ---------------------------------------------------------------------
  // The invariant of reachable states
  // ---------------------------------------------------------------------

  /** Every state a card reaches: the shown direction is the classification of
      the offset, and no offset is kept while no gesture is in progress. */
  ghost predicate Consistent(s: GestureState)
  {
    s.swipeDirection == Classify(s.offsetX) && (!s.swiping ==> s.offsetX == 0)
  }

  lemma IdleConsistent()
    ensures Consistent(Idle)
    ensures Resolve(Idle.offsetX, "") == None
  {
  }

  lemma StepsPreserveConsistent(s: GestureState, x: int)
    requires Consistent(s)
    ensures Consistent(Press(s, x))
    ensures Consistent(Move(s, x))
    ensures Consistent(Release(s))
  {
  }

  /** A move while no gesture is in progress changes nothing. */
  lemma MoveWhileIdleIsNoOp(s: GestureState, x: int)
    requires !s.swiping
    ensures Move(s, x) == s
  {
  }

  /** When a release commits, the direction the card showed last is the
      committed one, because the commit threshold exceeds the direction
      threshold. */
  lemma CommitMatchesShownDirection(s: GestureState, videoId: string)
    requires Consistent(s)
    requires Resolve(s.offsetX, videoId).Some?
    ensures s.swipeDirection == Resolve(s.offsetX, videoId).value.direction
    ensures s.swiping
  {
  }

  /** A release that follows a release reports nothing: in particular the mouse
      leaving the card after a mouse up. */
  lemma SecondReleaseReportsNothing(s: GestureState, videoId: string)
    ensures Resolve(Release(s).offsetX, videoId) == None
    ensures Release(Release(s)) == Release(s)
  {
  }

  /** A release with no gesture in progress reports nothing. */
  lemma IdleReleaseReportsNothing(s: GestureState, videoId: string)
    requires Consistent(s) && !s.swiping
    ensures Resolve(s.offsetX, videoId) == None
  {
  }

  // ---------------------------------------------------------------------
  // Event sequences, as the card's JSX binds them
  // ---------------------------------------------------------------------

  /** The events the card listens to, with their x coordinate. */
  datatype Event =
    | TouchStart(x: int) | TouchMove(x: int) | TouchEnd
    | MouseDown(x: int) | MouseMove(x: int) | MouseUp | MouseLeave

  predicate IsPress(e: Event)
  {
    e.TouchStart? || e.MouseDown?
  }

  /** The decisions a release reports, as a sequence of `onSwipe` calls. */
  function Calls(d: Option<SwipeDecision>): (r: seq<SwipeDecision>)
    ensures |r| <= 1
    ensures |r| == 1 <==> d.Some?
    ensures d.Some? ==> r == [d.value]
  {
    if d.Some? then [d.value] else []
  }

  /** One event handled against state `s`: the next state and the `onSwipe`
      calls it makes. */
  function Step(s: GestureState, e: Event, videoId: string): (r: (GestureState, seq<SwipeDecision>))
    ensures |r.1| <= 1
    ensures r.1 != [] ==> !IsPress(e) && Abs(s.offsetX) > SwipeThreshold
    ensures forall d :: d in r.1 ==> d.videoId == videoId && d.direction != Neutral
    ensures (e.TouchMove? || e.MouseMove?) ==> r.1 == []
    ensures (e.TouchEnd? || e.MouseUp? || e.MouseLeave?) ==>
              r.0 == Release(s) && (r.1 != [] <==> Abs(s.offsetX) > SwipeThreshold)
    ensures e.MouseLeave? ==> r == Step(s, MouseUp, videoId)
    decreases if e.MouseLeave? then 1 else 0
  {
    match e
    case TouchStart(x) => (Press(s, x), [])
    case MouseDown(x) => (Press(s, x), [])
    case TouchMove(x) => (Move(s, x), [])
    case MouseMove(x) => (Move(s, x), [])
    case TouchEnd => (Release(s), Calls(Resolve(s.offsetX, videoId)))
    case MouseUp => (Release(s), Calls(Resolve(s.offsetX, videoId)))
    case MouseLeave => (Release(s), Calls(Resolve(s.offsetX, videoId)))
  }

  /** A sequence of events handled one after the other. */
  function Run(s: GestureState, evs: seq<Event>, videoId: string): (r: (GestureState, seq<SwipeDecision>))
    decreases |evs|
  {
    if evs == [] then (s, [])
    else
      var (s1, out) := Step(s, evs[0], videoId);
      var (s2, rest) := Run(s1, evs[1..], videoId);
      (s2, out + rest)
  }

  /** The mouse counterpart of a touch event; mouse events stay as they are. */
  function ToMouse(e: Event): (r: Event)
  {
    match e
    case TouchStart(x) => MouseDown(x)
    case TouchMove(x) => MouseMove(x)
    case TouchEnd => MouseUp
    case _ => e
  }

  function AllToMouse(evs: seq<Event>): (r: seq<Event>)
    ensures |r| == |evs|
    ensures forall i :: 0 <= i < |evs| ==> r[i] == ToMouse(evs[i])
  {
    if evs == [] then [] else [ToMouse(evs[0])] + AllToMouse(evs[1..])
  }

  function CountPresses(evs: seq<Event>): (r: nat)
  {
    if evs == [] then 0 else (if IsPress(evs[0]) then 1 else 0) + CountPresses(evs[1..])
  }

  /** The touch handlers and the mouse handlers make the same state changes
      and the same `onSwipe` calls for the same x coordinates. `Step` sends a
      touch event and its mouse counterpart to the same transition function,
      so this lemma lifts that identity to whole event sequences. That the
      separate handler bodies really are the same transition is what the
      contracts of the `VideoCard` methods prove: `HandleTouchMove` and
      `HandleMouseMove` each equal `Move`, and likewise for start and end. */
  lemma {:induction false} TouchAndMouseAgree(s: GestureState, evs: seq<Event>, videoId: string)
    ensures Run(s, AllToMouse(evs), videoId) == Run(s, evs, videoId)
    decreases |evs|
  {
    if evs != [] {
      var m := AllToMouse(evs);
      assert m[1..] == AllToMouse(evs[1..]);
      assert Step(s, m[0], videoId) == Step(s, evs[0], videoId);
      TouchAndMouseAgree(Step(s, evs[0], videoId).0, evs[1..], videoId);
    }
  }

  /** Every state reached from a consistent state is consistent. */
  lemma {:induction false} RunPreservesConsistent(s: GestureState, evs: seq<Event>, videoId: string)
    requires Consistent(s)
    ensures Consistent(Run(s, evs, videoId).0)
    decreases |evs|
  {
    if evs != [] {
      var e := evs[0];
      StepsPreserveConsistent(s, if e.TouchStart? || e.MouseDown? || e.TouchMove? || e.MouseMove? then e.x else 0);
      RunPreservesConsistent(Step(s, e, videoId).0, evs[1..], videoId);
    }
  }

  /** Each gesture reports at most one decision: over any sequence of events,
      `onSwipe` is called no more often than the card is pressed, plus once for
      a gesture already in progress at the start. */
  lemma {:induction false} AtMostOneCallPerPress(s: GestureState, evs: seq<Event>, videoId: string)
    requires Consistent(s)
    ensures |Run(s, evs, videoId).1| <= CountPresses(evs) + (if s.swiping then 1 else 0)
    ensures forall i :: 0 <= i < |Run(s, evs, videoId).1| ==>
              Run(s, evs, videoId).1[i].videoId == videoId
    decreases |evs|
  {
    if evs != [] {
      var e := evs[0];
      var (s1, out) := Step(s, e, videoId);
      StepsPreserveConsistent(s, if e.TouchStart? || e.MouseDown? || e.TouchMove? || e.MouseMove? then e.x else 0);
      AtMostOneCallPerPress(s1, evs[1..], videoId);
      assert |out| <= (if s.swiping then 1 else 0);
      assert !IsPress(e) && out == [] ==> s1.swiping == s.swiping || !s1.swiping;
    }
  }

  /** Pressing at `x0`, moving to `x1` and releasing reports a decision exactly
      when the card moved more than the commit threshold, in the direction of
      the move, and leaves the card idle again. */
  lemma {:induction false} DragThenRelease(s: GestureState, x0: int, x1: int, videoId: string)
    ensures Run(s, [TouchStart(x0), TouchMove(x1), TouchEnd], videoId).1
            == Calls(Resolve(x1 - x0, videoId))
    ensures var r := Run(s, [TouchStart(x0), TouchMove(x1), TouchEnd], videoId).0;
            !r.swiping && r.offsetX == 0 && r.swipeDirection == Neutral && r.startX == x0
  {
    var evs := [TouchStart(x0), TouchMove(x1), TouchEnd];
    var s1 := Press(s, x0);
    var s2 := Move(s1, x1);
    assert evs[1..] == [TouchMove(x1), TouchEnd];
    assert evs[1..][1..] == [TouchEnd];
    assert evs[1..][1..][1..] == [];
    assert Run(s2, [TouchEnd], videoId) == (Release(s2), Calls(Resolve(s2.offsetX, videoId)) + []);
    var r2 := Run(s2, [TouchEnd], videoId);
    assert [] + r2.1 == r2.1;
    assert Run(s1, [TouchMove(x1), TouchEnd], videoId) == (r2.0, [] + r2.1);
    var r1 := Run(s1, [TouchMove(x1), TouchEnd], videoId);
    assert [] + r1.1 == r1.1;
    assert Run(s, evs, videoId) == (r1.0, [] + r1.1);
  }

  // ---------------------------------------------------------------------
  // The card
  // ---------------------------------------------------------------------

  class VideoCard {
    const video: PitchVideo
    var swiping: bool
    var startX: int
    var offsetX: int
    var swipeDirection: SwipeDirection

    ghost function State(): GestureState
      reads this
    {
      GestureState(swiping, startX, offsetX, swipeDirection)
    }

    ghost predicate Valid()
      reads this
    {
      Consistent(State())
    }

    constructor (video: PitchVideo)
      ensures Valid() && State() == Idle && this.video == video
    {
      this.video := video;
      swiping := false;
      swipeDirection := Neutral;
      startX := 0;
      offsetX := 0;
    }

    method HandleTouchStart(clientX: int)
      requires Valid()
      modifies this
      ensures Valid()
      ensures swiping && startX == clientX
      ensures offsetX == old(offsetX) && swipeDirection == old(swipeDirection)
      ensures State() == Press(old(State()), clientX)
    {
      startX := clientX;
      swiping := true;
    }

    method HandleTouchMove(clientX: int)
      requires Valid()
      modifies this
      ensures Valid()
      ensures !old(swiping) ==> State() == old(State())
      ensures old(swiping) ==> offsetX == clientX - startX && startX == old(startX) && swiping
      ensures old(swiping) ==> swipeDirection == Classify(offsetX)
      ensures State() == Move(old(State()), clientX)
    {
      if !swiping {
        return;
      }
      var diff := clientX - startX;
      offsetX := diff;
      if diff > 50 {
        swipeDirection := Right;
      } else if diff < -50 {
        swipeDirection := Left;
      } else {
        swipeDirection := Neutral;
      }
    }

    /** Returns the `onSwipe` call the release makes, if any. */
    method HandleTouchEnd() returns (decision: Option<SwipeDecision>)
      requires Valid()
      modifies this
      ensures Valid()
      ensures decision.Some? <==> Abs(old(offsetX)) > SwipeThreshold
      ensures decision.Some? ==> decision.value.videoId == video.id
      ensures decision.Some? ==> (decision.value.direction == Right <==> old(offsetX) > 0)
      ensures decision.Some? ==> decision.value.direction == old(swipeDirection)
      ensures !swiping && offsetX == 0 && swipeDirection == Neutral && startX == old(startX)
      ensures decision == Resolve(old(offsetX), video.id)
      ensures State() == Release(old(State()))
    {
      if Abs(offsetX) > SwipeThreshold {
        CommitMatchesShownDirection(State(), video.id);
      }
      decision := None;
      if Abs(offsetX) > SwipeThreshold {
        var direction := if offsetX > 0 then Right else Left;
        decision := Some(SwipeDecision(direction, video.id));
      }
      swiping := false;
      offsetX := 0;
      swipeDirection := Neutral;
    }

    method HandleMouseDown(clientX: int)
      requires Valid()
      modifies this
      ensures Valid()
      ensures swiping && startX == clientX
      ensures offsetX == old(offsetX) && swipeDirection == old(swipeDirection)
      ensures State() == Press(old(State()), clientX)
    {
      startX := clientX;
      swiping := true;
    }

    method HandleMouseMove(clientX: int)
      requires Valid()
      modifies this
      ensures Valid()
      ensures !old(swiping) ==> State() == old(State())
      ensures old(swiping) ==> offsetX == clientX - startX && startX == old(startX) && swiping
      ensures old(swiping) ==> swipeDirection == Classify(offsetX)
      ensures State() == Move(old(State()), clientX)
    {
      if !swiping {
        return;
      }
      var diff := clientX - startX;
      offsetX := diff;
      if diff > 50 {
        swipeDirection := Right;
      } else if diff < -50 {
        swipeDirection := Left;
      } else {
        swipeDirection := Neutral;
      }
    }

    /** Bound to both mouse up and mouse leave. */
    method HandleMouseUp() returns (decision: Option<SwipeDecision>)
      requires Valid()
      modifies this
      ensures Valid()
      ensures decision.Some? <==> Abs(old(offsetX)) > SwipeThreshold
      ensures decision.Some? ==> decision.value.videoId == video.id
      ensures decision.Some? ==> (decision.value.direction == Right <==> old(offsetX) > 0)
      ensures decision.Some? ==> decision.value.direction == old(swipeDirection)
      ensures !swiping && offsetX == 0 && swipeDirection == Neutral && startX == old(startX)
      ensures decision == Resolve(old(offsetX), video.id)
      ensures State() == Release(old(State()))
    {
      if Abs(offsetX) > SwipeThreshold {
        CommitMatchesShownDirection(State(), video.id);
      }
      decision := None;
      if Abs(offsetX) > SwipeThreshold {
        var direction := if offsetX > 0 then Right else Left;
        decision := Some(SwipeDecision(direction, video.id));
      }
      swiping := false;
      offsetX := 0;
      swipeDirection := Neutral;
    }
  }
}
