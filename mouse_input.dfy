/**
 * The mouse callback of the line-drawing mode: every left-button press adds
 * the clicked world point to the click history and redraws the whole history
 * as one line strip over the full window; a right-button release clears the
 * screen; any other event draws nothing and leaves the history alone.
 */
module MouseInput {
  import opened WorldCoordinates
  import Consts
  import Viewport

  /** GLUT's button and state codes (GLUT_LEFT_BUTTON, GLUT_RIGHT_BUTTON, GLUT_DOWN, GLUT_UP). */
  const LeftButton: int := 0
  const RightButton: int := 2
  const Down: int := 0
  const Up: int := 1

  /** One call of the mouse callback, with the window size GLUT reports at that moment. */
  datatype Event = Event(button: int, state: int, x: int, y: int, width: int, height: int)

  /** The window has a positive size, which the pixel-to-world conversion divides by. */
  predicate HasWindow(e: Event)
  {
    e.width > 0 && e.height > 0
  }

  predicate IsLeftDown(e: Event)
  {
    e.button == LeftButton && e.state == Down
  }

  predicate IsRightUp(e: Event)
  {
    e.button == RightButton && e.state == Up
  }

  /** The world point under the event's mouse position. */
  function Clicked(e: Event): (c: Coordinate)
    requires HasWindow(e)
    ensures 0 <= e.x <= e.width && 0 <= e.y <= e.height ==>
              Consts.WorldMinX <= c.x <= Consts.WorldMaxX && Consts.WorldMinY <= c.y <= Consts.WorldMaxY
  {
    ToWorld(e.x, e.y, e.width, e.height)
  }

  /** What one event draws. */
  datatype Drawing =
    | LineStrip(viewport: Viewport.Viewport, vertices: seq<Coordinate>)
    | ClearScreen
    | NoDrawing

  /** The click history after an event, and what the event draws. */
  datatype Response = Response(history: seq<Coordinate>, drawing: Drawing)

  /** The callback's effect on a click history, as a value. */
  function Respond(history: seq<Coordinate>, e: Event): (r: Response)
    requires HasWindow(e)
    ensures IsLeftDown(e) ==>
              |r.history| == |history| + 1 && r.history[..|history|] == history &&
              r.history[|history|] == Clicked(e) &&
              r.drawing == LineStrip(Viewport.FullWindow(e.width, e.height), r.history)
    ensures !IsLeftDown(e) ==> r.history == history
    ensures r.drawing.ClearScreen? <==> IsRightUp(e)
    ensures r.drawing.NoDrawing? <==> !IsLeftDown(e) && !IsRightUp(e)
  {
    if IsLeftDown(e) then
      var extended := history + [Clicked(e)];
      Response(extended, LineStrip(Viewport.FullWindow(e.width, e.height), extended))
    else if IsRightUp(e) then
      Response(history, ClearScreen)
    else
      Response(history, NoDrawing)
  }

  predicate AllHaveWindow(es: seq<Event>)
  {
    forall i :: 0 <= i < |es| ==> HasWindow(es[i])
  }

  /** The click history after a sequence of events, one `Respond` at a time. */
  function Run(history: seq<Coordinate>, es: seq<Event>): seq<Coordinate>
    requires AllHaveWindow(es)
    decreases |es|
  {
    if es == [] then history else Run(Respond(history, es[0]).history, es[1..])
  }

  /** The world points of the left-button presses among `es`, in order. */
  function Clicks(es: seq<Event>): seq<Coordinate>
    requires AllHaveWindow(es)
    decreases |es|
  {
    if es == [] then []
    else (if IsLeftDown(es[0]) then [Clicked(es[0])] else []) + Clicks(es[1..])
  }

  /** The history only ever grows by the left-button clicks, in the order they came. */
  lemma {:induction false} RunAppendsClicks(history: seq<Coordinate>, es: seq<Event>)
    requires AllHaveWindow(es)
    ensures Run(history, es) == history + Clicks(es)
    decreases |es|
  {
    if es != [] {
      var next := Respond(history, es[0]).history;
      var mine := if IsLeftDown(es[0]) then [Clicked(es[0])] else [];
      assert next == history + mine;
      RunAppendsClicks(next, es[1..]);
      assert Run(history, es) == (history + mine) + Clicks(es[1..]);
      assert Clicks(es) == mine + Clicks(es[1..]);
    }
  }

  /** A point is remembered exactly when some left-button press was on it. */
  lemma {:induction false} ClicksAreTheLeftDowns(es: seq<Event>)
    requires AllHaveWindow(es)
    ensures forall c :: c in Clicks(es) <==>
              exists i :: 0 <= i < |es| && IsLeftDown(es[i]) && Clicked(es[i]) == c
    decreases |es|
  {
    if es != [] {
      var rest := es[1..];
      ClicksAreTheLeftDowns(rest);
      var mine := if IsLeftDown(es[0]) then [Clicked(es[0])] else [];
      assert Clicks(es) == mine + Clicks(rest);
      forall c | c in Clicks(es)
        ensures exists i :: 0 <= i < |es| && IsLeftDown(es[i]) && Clicked(es[i]) == c
      {
        if c in mine {
          assert IsLeftDown(es[0]) && Clicked(es[0]) == c;
        } else {
          var j :| 0 <= j < |rest| && IsLeftDown(rest[j]) && Clicked(rest[j]) == c;
          assert es[j + 1] == rest[j];
        }
      }
      forall c, i | 0 <= i < |es| && IsLeftDown(es[i]) && Clicked(es[i]) == c
        ensures c in Clicks(es)
      {
        if i > 0 {
          assert rest[i - 1] == es[i];
        }
      }
    }
  }

  /** The click history, initially empty, appended to by the mouse callback. */
  class ClickHistory {
    var coordinates: seq<Coordinate>

    constructor()
      ensures coordinates == []
    {
      coordinates := [];
    }

    /** The mouse callback: converts the position, then dispatches on button and state. */
    method Mouse(button: int, state: int, mouseX: int, mouseY: int, width: int, height: int)
      returns (d: Drawing)
      requires width > 0 && height > 0
      modifies this
      ensures var r := Respond(old(coordinates), Event(button, state, mouseX, mouseY, width, height));
              coordinates == r.history && d == r.drawing
    {
      var world := ToWorld(mouseX, mouseY, width, height);
      if button == LeftButton && state == Down {
        d := OnLeftDown(world, width, height);
      } else if button == RightButton && state == Up {
        d := ClearScreen;
      } else {
        d := NoDrawing;
      }
    }

    /** A left-button press: remember the point and draw every remembered point as one strip. */
    method OnLeftDown(world: Coordinate, width: int, height: int) returns (d: Drawing)
      modifies this
      ensures coordinates == old(coordinates) + [world]
      ensures d == LineStrip(Viewport.FullWindow(width, height), coordinates)
    {
      coordinates := coordinates + [world];
      var strip := Replay();
      d := LineStrip(Viewport.FullWindow(width, height), strip);
    }

    /** The vertices of the line strip, emitted one remembered point at a time. */
    method Replay() returns (strip: seq<Coordinate>)
      ensures strip == coordinates
    {
      strip := [];
      var i := 0;
      while i < |coordinates|
        invariant 0 <= i <= |coordinates|
        invariant strip == coordinates[..i]
      {
        strip := strip + [coordinates[i]];
        i := i + 1;
      }
    }
  }
}
