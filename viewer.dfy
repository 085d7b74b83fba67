/** The result page's drag-to-rotate image viewer: pointer drags accumulate
    pitch and yaw, applied as a perspective transform while the 3D view is on. */
module Viewer {

  /** Half a degree of rotation per pixel of pointer travel. */
  const DegreesPerPixel: real := 0.5

  datatype Pos = Pos(x: real, y: real)

  /** The viewer's state: the 3D toggle, the accumulated rotation about the x
      axis (pitch) and the y axis (yaw), whether a drag is in progress and the
      last pointer position seen. */
  datatype ViewState = ViewState(show3D: bool, rotX: real, rotY: real, dragging: bool, last: Pos)

  datatype Event = Down(p: Pos) | Move(p: Pos) | Up | Leave | Toggle

  /** The style applied to the image. */
  datatype Transform = NoTransform | Perspective(distance: real, rotateX: real, rotateY: real)

  const Initial: ViewState := ViewState(true, 0.0, 0.0, false, Pos(0.0, 0.0))

  /** The effect of one event. Pointer-up and pointer-leave share one handler.
      Only a toggle changes the view, and only a move during a drag changes
      the rotation. */
  function Step(st: ViewState, e: Event): (r: ViewState)
    ensures r.show3D != st.show3D <==> e.Toggle?
    ensures r.rotX != st.rotX || r.rotY != st.rotY ==> e.Move? && st.dragging
  {
    match e
    case Down(p) => st.(dragging := true, last := p)
    case Move(p) =>
      if !st.dragging then st
      else
        var dx := p.x - st.last.x;
        var dy := p.y - st.last.y;
        st.(rotX := st.rotX + dy * DegreesPerPixel, rotY := st.rotY + dx * DegreesPerPixel, last := p)
    case Up => st.(dragging := false)
    case Leave => st.(dragging := false)
    case Toggle => st.(show3D := !st.show3D)
  }

  /** The state after a sequence of events, handled one at a time in order. */
  function Run(st: ViewState, es: seq<Event>): ViewState
    decreases |es|
  {
    if es == [] then st else Run(Step(st, es[0]), es[1..])
  }

  function ViewTransform(st: ViewState): (t: Transform)
    ensures t.Perspective? <==> st.show3D
    ensures t.Perspective? ==> t == Perspective(1000.0, st.rotX, st.rotY)
  {
    if st.show3D then Perspective(1000.0, st.rotX, st.rotY) else NoTransform
  }

  /** Pointer-down starts a drag at the pointer and leaves the rotation alone;
      pointer-up and pointer-leave both end it, again leaving the rotation alone. */
  lemma DownUpLeave(st: ViewState, p: Pos)
    ensures var d := Step(st, Down(p));
      d.dragging && d.last == p && d.rotX == st.rotX && d.rotY == st.rotY && d.show3D == st.show3D
    ensures Step(st, Up) == Step(st, Leave)
    ensures var u := Step(st, Up);
      !u.dragging && u.rotX == st.rotX && u.rotY == st.rotY && u.last == st.last && u.show3D == st.show3D
  {
  }

  /** A move without a drag in progress changes nothing; with one it rotates by
      half the pointer's travel since the last event, axes swapped. */
  lemma MoveEffect(st: ViewState, p: Pos)
    ensures !st.dragging ==> Step(st, Move(p)) == st
    ensures st.dragging ==> var m := Step(st, Move(p));
      && m.rotX == st.rotX + 0.5 * (p.y - st.last.y)
      && m.rotY == st.rotY + 0.5 * (p.x - st.last.x)
      && m.last == p && m.dragging && m.show3D == st.show3D
  {
  }

  /** Toggling the 3D view keeps the rotation, and toggling twice restores the transform. */
  lemma ToggleKeepsRotation(st: ViewState)
    ensures var t := Step(st, Toggle);
      t.rotX == st.rotX && t.rotY == st.rotY && t.show3D == !st.show3D
    ensures ViewTransform(Step(Step(st, Toggle), Toggle)) == ViewTransform(st)
  {
  }

  lemma {:induction false} RunAppend(st: ViewState, a: seq<Event>, b: seq<Event>)
    ensures Run(st, a + b) == Run(Run(st, a), b)
    decreases |a|
  {
    if a != [] {
      assert (a + b)[1..] == a[1..] + b;
      RunAppend(Step(st, a[0]), a[1..], b);
    } else {
      assert a + b == b;
    }
  }

  /** One move event per pointer position, in order. */
  function Moves(ps: seq<Pos>): seq<Event>
  {
    seq(|ps|, i requires 0 <= i < |ps| => Move(ps[i]))
  }

  function LastOr(ps: seq<Pos>, p: Pos): Pos
  {
    if ps == [] then p else ps[|ps| - 1]
  }

  /** During a drag the increments telescope: after any moves, the rotation has
      changed by half the displacement from the drag's reference point to the
      last pointer position, whatever the positions in between. */
  lemma {:induction false} DragTelescopes(st: ViewState, ps: seq<Pos>)
    requires st.dragging
    ensures var r := Run(st, Moves(ps));
            var f := LastOr(ps, st.last);
      && r.rotX == st.rotX + 0.5 * (f.y - st.last.y)
      && r.rotY == st.rotY + 0.5 * (f.x - st.last.x)
      && r.dragging && r.last == f && r.show3D == st.show3D
    decreases |ps|
  {
    if ps != [] {
      var next := Step(st, Move(ps[0]));
      assert Moves(ps)[1..] == Moves(ps[1..]);
      DragTelescopes(next, ps[1..]);
      if ps[1..] != [] {
        assert LastOr(ps[1..], next.last) == LastOr(ps, st.last);
      }
    }
  }

  /** A whole drag, from pointer-down at `start` through the moves to pointer-up
      or pointer-leave, rotates by half the net displacement and ends idle. */
  lemma WholeDrag(st: ViewState, start: Pos, ps: seq<Pos>, stop: Event)
    requires stop == Up || stop == Leave
    ensures var r := Run(st, [Down(start)] + Moves(ps) + [stop]);
            var f := LastOr(ps, start);
      && r.rotX == st.rotX + 0.5 * (f.y - start.y)
      && r.rotY == st.rotY + 0.5 * (f.x - start.x)
      && !r.dragging && r.show3D == st.show3D
  {
    var d := Step(st, Down(start));
    RunAppend(st, [Down(start)] + Moves(ps), [stop]);
    RunAppend(st, [Down(start)], Moves(ps));
    assert Run(st, [Down(start)]) == d;
    DragTelescopes(d, ps);
  }

  /** Only a move during a drag alters the rotation: without moves it is never reset or clamped. */
  lemma {:induction false} NoMoveKeepsRotation(st: ViewState, es: seq<Event>)
    requires forall i :: 0 <= i < |es| ==> !es[i].Move?
    ensures Run(st, es).rotX == st.rotX && Run(st, es).rotY == st.rotY
    decreases |es|
  {
    if es != [] {
      NoMoveKeepsRotation(Step(st, es[0]), es[1..]);
    }
  }

  /** From the initial state, a press at (100, 100) and a move to (110, 115)
      add 5 degrees of yaw and 7.5 of pitch; leaving then ends the drag, and
      later moves change nothing. */
  lemma PressMoveLeave()
    ensures Run(Initial, [Down(Pos(100.0, 100.0)), Move(Pos(110.0, 115.0))]).rotY == 5.0
    ensures Run(Initial, [Down(Pos(100.0, 100.0)), Move(Pos(110.0, 115.0))]).rotX == 7.5
    ensures var s := Run(Initial, [Down(Pos(100.0, 100.0)), Move(Pos(110.0, 115.0)), Leave]);
      !s.dragging && s.rotX == 7.5 && s.rotY == 5.0 && Step(s, Move(Pos(0.0, 0.0))) == s
  {
    var s1 := Step(Initial, Down(Pos(100.0, 100.0)));
    var s2 := Step(s1, Move(Pos(110.0, 115.0)));
    assert Run(Initial, [Down(Pos(100.0, 100.0)), Move(Pos(110.0, 115.0))]) == Run(s2, []);
    assert Run(Initial, [Down(Pos(100.0, 100.0)), Move(Pos(110.0, 115.0)), Leave]) == Run(Step(s2, Leave), []);
  }

  /** The viewer's mutable state. Each handler is one atomic update. */
  class RotationViewer {
    var show3D: bool
    var rotX: real
    var rotY: real
    var dragging: bool
    var lastX: real
    var lastY: real

    function State(): ViewState
      reads this
    {
      ViewState(show3D, rotX, rotY, dragging, Pos(lastX, lastY))
    }

    constructor ()
      ensures State() == Initial
    {
      show3D := true;
      rotX, rotY := 0.0, 0.0;
      dragging := false;
      lastX, lastY := 0.0, 0.0;
    }

    method MouseDown(x: real, y: real)
      modifies this
      ensures State() == Step(old(State()), Down(Pos(x, y)))
      ensures dragging && lastX == x && lastY == y
      ensures rotX == old(rotX) && rotY == old(rotY) && show3D == old(show3D)
    {
      dragging := true;
      lastX, lastY := x, y;
    }

    method MouseMove(x: real, y: real)
      modifies this
      ensures State() == Step(old(State()), Move(Pos(x, y)))
      ensures !old(dragging) ==> State() == old(State())
      ensures old(dragging) ==>
        && rotX == old(rotX) + (y - old(lastY)) * DegreesPerPixel
        && rotY == old(rotY) + (x - old(lastX)) * DegreesPerPixel
        && lastX == x && lastY == y
      ensures dragging == old(dragging) && show3D == old(show3D)
    {
      if !dragging {
        return;
      }
      var dx := x - lastX;
      var dy := y - lastY;
      rotX, rotY := rotX + dy * DegreesPerPixel, rotY + dx * DegreesPerPixel;
      lastX, lastY := x, y;
    }

    method MouseUp()
      modifies this
      ensures State() == Step(old(State()), Up)
      ensures !dragging
      ensures rotX == old(rotX) && rotY == old(rotY) && show3D == old(show3D)
      ensures lastX == old(lastX) && lastY == old(lastY)
    {
      dragging := false;
    }

    /** Leaving the viewer runs the pointer-up handler. */
    method MouseLeave()
      modifies this
      ensures State() == Step(old(State()), Leave)
      ensures !dragging
      ensures rotX == old(rotX) && rotY == old(rotY) && show3D == old(show3D)
      ensures lastX == old(lastX) && lastY == old(lastY)
    {
      MouseUp();
    }

    method ToggleView()
      modifies this
      ensures State() == Step(old(State()), Toggle)
      ensures show3D == !old(show3D)
      ensures rotX == old(rotX) && rotY == old(rotY) && dragging == old(dragging)
      ensures lastX == old(lastX) && lastY == old(lastY)
    {
      show3D := !show3D;
    }

    /** The transform on the image: the accumulated rotation while the 3D view is on, none otherwise. */
    function ImageTransform(): Transform
      reads this
    {
      ViewTransform(State())
    }
  }
}
