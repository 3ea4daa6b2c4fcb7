/** The state machine inside the 3D view's render loop, with every OpenGL call
    taken out: the two integer flip angles, the three flags, the current page and
    the list of pages whose textures are loaded. One tick drains the input
    events, steps the right flip, draws the right page (which reads the second
    texture), steps the left flip, and finally runs the completion checks, which
    move the current page and reload the textures. */
module Animator {
  import opened Pages
  import opened Navigation

  /** Degrees a flipping page turns per tick. */
  const FlipStep: int := 5
  /** The angle, in absolute value, at which a flip is over. */
  const FlipEnd: int := 180
  /** Ticks a flip lasts from angle 0. */
  const FlipTicks: nat := 36

  /** One input event as the loop sees it. For a mouse press, `x` is the pointer
      position read while the event is handled and `width` the window width. */
  datatype Event = Quit | MouseDown(x: int, width: nat) | OtherEvent

  datatype Anim = Anim(
    leftAngle: int,
    rightAngle: int,
    flippingLeft: bool,
    flippingRight: bool,
    pageFlipping: bool)

  /** The loop's locals when the 3D view opens. */
  const Start: Anim := Anim(0, 0, false, false, false)

  /** What every reachable animation state satisfies: `page_flipping` is exactly
      "one side is flipping", the two sides never flip at once, each angle is a
      multiple of the step between 0 and ±180, and a flipping side has not yet
      reached its end. */
  predicate Consistent(a: Anim) {
    && a.pageFlipping == (a.flippingLeft || a.flippingRight)
    && !(a.flippingLeft && a.flippingRight)
    && 0 <= a.rightAngle <= FlipEnd && a.rightAngle % FlipStep == 0
    && -FlipEnd <= a.leftAngle <= 0 && a.leftAngle % FlipStep == 0
    && (a.flippingRight ==> a.rightAngle < FlipEnd)
    && (a.flippingLeft ==> a.leftAngle > -FlipEnd)
  }

  /** The render loop's routing: `mouse_x > width // 2` flips right, any other
      press flips left. */
  function FlipClickSide(x: int, width: nat): (s: Side)
    ensures s == Right <==> 2 * x >= width + 2 - width % 2
  {
    if x > width / 2 then Right else Left
  }

  /** The flat viewer and the 3D view split the window the same way except for
      a press exactly on the middle of an even width, which the flat viewer
      sends forward and the 3D view sends back. */
  lemma ClickSidesDisagreeOnlyAtMidline(x: int, width: nat)
    ensures FlatClickSide(x, width) != FlipClickSide(x, width) <==> width % 2 == 0 && 2 * x == width
    ensures width % 2 == 0 && 2 * x == width ==> FlatClickSide(x, width) == Right && FlipClickSide(x, width) == Left
  {
  }

  /** A mouse press on `side`: ignored while a flip is in progress; otherwise
      that side starts flipping from angle 0. */
  function Click(a: Anim, side: Side): (r: Anim)
    ensures a.pageFlipping ==> r == a
    ensures !a.pageFlipping ==> r.pageFlipping
    ensures !a.pageFlipping && side == Right ==>
      r.flippingRight && r.rightAngle == 0 && r.leftAngle == a.leftAngle && r.flippingLeft == a.flippingLeft
    ensures !a.pageFlipping && side == Left ==>
      r.flippingLeft && r.leftAngle == 0 && r.rightAngle == a.rightAngle && r.flippingRight == a.flippingRight
    ensures Consistent(a) ==> Consistent(r)
  {
    if a.pageFlipping then a
    else if side == Right then a.(flippingRight := true, rightAngle := 0, pageFlipping := true)
    else a.(flippingLeft := true, leftAngle := 0, pageFlipping := true)
  }

  /** An event list that holds neither a quit nor a mouse press. */
  predicate Quiet(events: seq<Event>) {
    forall i :: 0 <= i < |events| ==> events[i] == OtherEvent
  }

  /** None of the first `i` events is a mouse press. */
  predicate NoPressBefore(events: seq<Event>, i: int) {
    i <= |events| && forall j :: 0 <= j < i ==> !events[j].MouseDown?
  }

  datatype Drained = Quitting | Drained(anim: Anim)

  /** The event loop of one tick: events are handled in order and a quit ends
      the view at once. With no flip in progress the first press starts a flip
      on its side, which sets the guard, so every later press is ignored. */
  function DrainEvents(a: Anim, events: seq<Event>): (r: Drained)
    ensures r == Quitting <==> Quit in events
    ensures r.Drained? && Consistent(a) ==> Consistent(r.anim)
    ensures r.Drained? && a.pageFlipping ==> r.anim == a
    ensures Quit !in events && NoPressBefore(events, |events|) ==> r == Drained(a)
    ensures Quit !in events && !a.pageFlipping ==>
      forall i :: 0 <= i < |events| && events[i].MouseDown? && NoPressBefore(events, i) ==>
        r == Drained(Click(a, FlipClickSide(events[i].x, events[i].width)))
    ensures Quiet(events) ==> r == Drained(a)
    decreases |events|
  {
    if events == [] then Drained(a)
    else
      assert events == [events[0]] + events[1..];
      assert forall i :: 0 < i <= |events| && NoPressBefore(events, i) ==> NoPressBefore(events[1..], i - 1);
      match events[0]
      case Quit => Quitting
      case MouseDown(x, width) => DrainEvents(Click(a, FlipClickSide(x, width)), events[1..])
      case OtherEvent => DrainEvents(a, events[1..])
  }

  /** The right page's step: a flipping right page turns by one step and stops,
      clearing the global guard, on the tick its angle reaches 180. */
  function StepRight(a: Anim): (r: Anim)
    ensures r.leftAngle == a.leftAngle && r.flippingLeft == a.flippingLeft
    ensures !a.flippingRight ==> r == a
    ensures a.flippingRight ==> r.rightAngle == a.rightAngle + FlipStep
    ensures Consistent(a) && a.flippingRight ==> (r.flippingRight <==> r.rightAngle < FlipEnd)
    ensures Consistent(a) && a.flippingRight && !r.flippingRight ==> r.rightAngle == FlipEnd && !r.pageFlipping
    ensures Consistent(a) ==> Consistent(r)
  {
    if !a.flippingRight then a
    else
      var angle := a.rightAngle + FlipStep;
      if angle >= FlipEnd then a.(rightAngle := angle, flippingRight := false, pageFlipping := false)
      else a.(rightAngle := angle)
  }

  /** The left page's step, symmetric to the right one with a negative angle. */
  function StepLeft(a: Anim): (r: Anim)
    ensures r.rightAngle == a.rightAngle && r.flippingRight == a.flippingRight
    ensures !a.flippingLeft ==> r == a
    ensures a.flippingLeft ==> r.leftAngle == a.leftAngle - FlipStep
    ensures Consistent(a) && a.flippingLeft ==> (r.flippingLeft <==> r.leftAngle > -FlipEnd)
    ensures Consistent(a) && a.flippingLeft && !r.flippingLeft ==> r.leftAngle == -FlipEnd && !r.pageFlipping
    ensures Consistent(a) ==> Consistent(r)
  {
    if !a.flippingLeft then a
    else
      var angle := a.leftAngle - FlipStep;
      if angle <= -FlipEnd then a.(leftAngle := angle, flippingLeft := false, pageFlipping := false)
      else a.(leftAngle := angle)
  }

  /** The event loop at the top of each tick of `render_3d`: every mouse
      press is routed to a side unless a flip is in progress; a quit event
      stops the handling at once. */
  method DrainInput(a0: Anim, events: seq<Event>) returns (quit: bool, a: Anim)
    ensures quit ==> DrainEvents(a0, events) == Quitting
    ensures !quit ==> DrainEvents(a0, events) == Drained(a)
  {
    var leftFlipAngle, rightFlipAngle := a0.leftAngle, a0.rightAngle;
    var flippingLeft, flippingRight, pageFlipping := a0.flippingLeft, a0.flippingRight, a0.pageFlipping;
    for j := 0 to |events|
      invariant DrainEvents(a0, events) ==
        DrainEvents(Anim(leftFlipAngle, rightFlipAngle, flippingLeft, flippingRight, pageFlipping), events[j..])
    {
      assert events[j..][0] == events[j] && events[j..][1..] == events[j + 1..];
      var event := events[j];
      if event.Quit? {
        return true, Anim(leftFlipAngle, rightFlipAngle, flippingLeft, flippingRight, pageFlipping);
      }
      if event.MouseDown? && !pageFlipping {
        if event.x > event.width / 2 {
          flippingRight := true;
          rightFlipAngle := 0;
          pageFlipping := true;
        } else {
          flippingLeft := true;
          leftFlipAngle := 0;
          pageFlipping := true;
        }
      }
    }
    assert events[|events|..] == [];
    quit, a := false, Anim(leftFlipAngle, rightFlipAngle, flippingLeft, flippingRight, pageFlipping);
  }

  /** The flip step in front of the right page's quad in `render_3d`. */
  method TurnRightPage(a: Anim) returns (r: Anim)
    ensures r == StepRight(a)
  {
    var rightFlipAngle, flippingRight, pageFlipping := a.rightAngle, a.flippingRight, a.pageFlipping;
    if flippingRight {
      rightFlipAngle := rightFlipAngle + FlipStep;
      if rightFlipAngle >= FlipEnd {
        flippingRight := false;
        pageFlipping := false;
      }
    }
    r := a.(rightAngle := rightFlipAngle, flippingRight := flippingRight, pageFlipping := pageFlipping);
  }

  /** The flip step in front of the left page's quad in `render_3d`. */
  method TurnLeftPage(a: Anim) returns (r: Anim)
    ensures r == StepLeft(a)
  {
    var leftFlipAngle, flippingLeft, pageFlipping := a.leftAngle, a.flippingLeft, a.pageFlipping;
    if flippingLeft {
      leftFlipAngle := leftFlipAngle - FlipStep;
      if leftFlipAngle <= -FlipEnd {
        flippingLeft := false;
        pageFlipping := false;
      }
    }
    r := a.(leftAngle := leftFlipAngle, flippingLeft := flippingLeft, pageFlipping := pageFlipping);
  }

  /** The completion tests of the loop; they look at the angle and the flag
      only, so they hold on every tick after a flip has ended. */
  predicate RightDone(a: Anim) { a.rightAngle >= FlipEnd && !a.flippingRight }
  predicate LeftDone(a: Anim) { a.leftAngle <= -FlipEnd && !a.flippingLeft }

  /** The loop's state between ticks: its locals, `self.current_page`, and the
      pages whose textures the local `textures` holds. */
  datatype Frame = Frame(anim: Anim, page: int, textures: seq<int>)

  /** The completion checks: a finished right flip moves two pages forward, a
      finished left flip two back, each with no range check and each followed
      by a reload for the page just reached. */
  function Complete(f: Frame, pageCount: nat): (r: Frame)
    ensures r.anim == f.anim
    ensures r.page == f.page + (if RightDone(f.anim) then 2 else 0) - (if LeftDone(f.anim) then 2 else 0)
    ensures RightDone(f.anim) || LeftDone(f.anim) ==> r.textures == TexturePages(pageCount, r.page)
    ensures !RightDone(f.anim) && !LeftDone(f.anim) ==> r.textures == f.textures
  {
    var g := if RightDone(f.anim) then Frame(f.anim, f.page + 2, TexturePages(pageCount, f.page + 2)) else f;
    if LeftDone(g.anim) then Frame(g.anim, g.page - 2, TexturePages(pageCount, g.page - 2)) else g
  }

  /** How the loop stands: still running, left on a quit event, or stopped by
      the IndexError of `textures[1]` when fewer than two textures are loaded. */
  datatype Status = Running | Quitted | Crashed

  datatype Step = Step(status: Status, frame: Frame)

  /** One pass of the render loop's body. */
  function Tick(f: Frame, events: seq<Event>, pageCount: nat): (r: Step)
    ensures r.status == Quitted <==> Quit in events
    ensures r.status == Crashed <==> Quit !in events && |f.textures| < 2
    ensures r.status != Running ==> r.frame.page == f.page && r.frame.textures == f.textures
    ensures r.status == Running ==>
      r.frame.page == f.page + (if RightDone(r.frame.anim) then 2 else 0) - (if LeftDone(r.frame.anim) then 2 else 0)
    ensures r.status == Running ==> r.frame.anim == Advance(DrainEvents(f.anim, events).anim)
    ensures r.status == Running ==>
      r.frame.textures == if RightDone(r.frame.anim) || LeftDone(r.frame.anim) then TexturePages(pageCount, r.frame.page) else f.textures
    ensures r.status == Running && Quiet(events) ==> r.frame.anim == Advance(f.anim)
    ensures Consistent(f.anim) ==> Consistent(r.frame.anim)
  {
    match DrainEvents(f.anim, events)
    case Quitting => Step(Quitted, f)
    case Drained(a) =>
      var a1 := StepRight(a);
      if |f.textures| < 2 then Step(Crashed, Frame(a1, f.page, f.textures))
      else Step(Running, Complete(Frame(StepLeft(a1), f.page, f.textures), pageCount))
  }

  /** The animation part of a tick in which no event arrives. */
  function Advance(a: Anim): Anim {
    StepLeft(StepRight(a))
  }

  function AdvanceN(a: Anim, k: nat): Anim
    decreases k
  {
    if k == 0 then a else Advance(AdvanceN(a, k - 1))
  }

  /** The render loop over the given ticks, each with the events that arrived
      before it; once it has quit or crashed nothing more happens. */
  function Run(f: Frame, frames: seq<seq<Event>>, pageCount: nat): (r: Step)
    ensures Consistent(f.anim) ==> Consistent(r.frame.anim)
    ensures r.status == Quitted ==> exists i :: 0 <= i < |frames| && Quit in frames[i]
    decreases |frames|
  {
    if frames == [] then Step(Running, f)
    else
      var prev := Run(f, frames[..|frames| - 1], pageCount);
      if prev.status != Running then prev
      else Tick(prev.frame, frames[|frames| - 1], pageCount)
  }

  /** A quit or a crash ends the loop: later ticks change nothing. */
  lemma {:induction false} RunHalts(f: Frame, frames: seq<seq<Event>>, pageCount: nat, k: nat)
    requires k <= |frames|
    requires Run(f, frames[..k], pageCount).status != Running
    ensures Run(f, frames, pageCount) == Run(f, frames[..k], pageCount)
    decreases |frames| - k
  {
    if k < |frames| {
      var init := frames[..|frames| - 1];
      assert init[..k] == frames[..k];
      RunHalts(f, init, pageCount, k);
      assert Run(f, frames, pageCount) == Run(f, init, pageCount);
    } else {
      assert frames[..k] == frames;
    }
  }

  /** A right flip started from a consistent state lasts exactly 36 ticks, ends
      at exactly 180 degrees, and the right angle then stays at 180; the left
      page does not move meanwhile. */
  lemma {:induction false} RightFlipTakes36Ticks(a: Anim, k: nat)
    requires Consistent(a) && a.flippingRight && a.rightAngle == 0
    ensures AdvanceN(a, k).rightAngle == if k < FlipTicks then FlipStep * k else FlipEnd
    ensures AdvanceN(a, k).flippingRight <==> k < FlipTicks
    ensures AdvanceN(a, k).pageFlipping <==> k < FlipTicks
    ensures AdvanceN(a, k).leftAngle == a.leftAngle && !AdvanceN(a, k).flippingLeft
    ensures Consistent(AdvanceN(a, k))
    decreases k
  {
    if k > 0 {
      RightFlipTakes36Ticks(a, k - 1);
    }
  }

  /** The left flip is the mirror image: 36 ticks, ending at exactly -180. */
  lemma {:induction false} LeftFlipTakes36Ticks(a: Anim, k: nat)
    requires Consistent(a) && a.flippingLeft && a.leftAngle == 0
    ensures AdvanceN(a, k).leftAngle == if k < FlipTicks then -FlipStep * k else -FlipEnd
    ensures AdvanceN(a, k).flippingLeft <==> k < FlipTicks
    ensures AdvanceN(a, k).pageFlipping <==> k < FlipTicks
    ensures AdvanceN(a, k).rightAngle == a.rightAngle && !AdvanceN(a, k).flippingRight
    ensures Consistent(AdvanceN(a, k))
    decreases k
  {
    if k > 0 {
      LeftFlipTakes36Ticks(a, k - 1);
    }
  }

  /** The completion check is level-triggered: after a right flip has ended,
      every further tick without input moves the current page two more pages
      forward (until the loop crashes on a short texture list), and the angle
      stays at 180. */
  lemma {:induction false} CompletedRightFlipKeepsTurning(f: Frame, frames: seq<seq<Event>>, pageCount: nat)
    requires f.anim == Anim(f.anim.leftAngle, FlipEnd, false, false, false) && f.anim.leftAngle > -FlipEnd
    requires forall i :: 0 <= i < |frames| ==> Quiet(frames[i])
    ensures Run(f, frames, pageCount).status != Quitted
    ensures Run(f, frames, pageCount).status == Running ==>
      Run(f, frames, pageCount).frame.page == f.page + 2 * |frames| && Run(f, frames, pageCount).frame.anim == f.anim
    decreases |frames|
  {
    if frames != [] {
      var init := frames[..|frames| - 1];
      var last := frames[|frames| - 1];
      assert forall e :: e in last ==> e == OtherEvent;
      CompletedRightFlipKeepsTurning(f, init, pageCount);
    }
  }
}
