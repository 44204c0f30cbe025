/**
 * The content script's floating panel: a launcher bubble that can be dragged
 * or clicked, and a container that the bubble click or the minimize button
 * shows and hides and whose corner handle resizes it.
 *
 * `Panel` is the script's state as a value (its module-level variables, the
 * bubble position, the container size, both elements' `style.display`, and
 * whether the bubble's drag listeners are attached); the functions below are
 * the event handlers on it, and the class `FloatingWindow` holds the same
 * state in fields, its methods proved to perform exactly those handlers.
 */
module ContentScript {

  /** An element's `style.display`: never set (the stylesheet applies), "none" or "block". */
  datatype Display = DisplayUnset | DisplayNone | DisplayBlock

  predicate Visible(d: Display) {
    d != DisplayNone
  }

  /** A mouse movement beyond this many pixels on an axis is a drag. */
  const DragThreshold: int := 3
  const MinWidth: int := 250
  const MaxWidth: int := 600
  const MinHeight: int := 350
  const MaxHeight: int := 800

  function Abs(x: int): (r: nat)
    ensures r == x || r == -x
  {
    if x < 0 then -x else x
  }

  /** `Math.abs(dx) > 3 || Math.abs(dy) > 3` */
  predicate BeyondThreshold(dx: int, dy: int) {
    Abs(dx) > DragThreshold || Abs(dy) > DragThreshold
  }

  datatype Panel = Panel(
    containerDisplay: Display,
    bubbleDisplay: Display,
    bubbleLeft: int,
    bubbleTop: int,
    isDragging: bool,
    dragStartX: int,
    dragStartY: int,
    dragListening: bool,  // the bubble gesture's mousemove/mouseup listeners are attached
    isResizing: bool,
    initialWidth: int,
    initialHeight: int,
    initialX: int,
    initialY: int,
    width: int,
    height: int)

  /** Exactly one of the container and the bubble is visible. */
  predicate OneVisible(p: Panel) {
    Visible(p.containerDisplay) != Visible(p.bubbleDisplay)
  }

  predicate SizeInRange(p: Panel) {
    MinWidth <= p.width <= MaxWidth && MinHeight <= p.height <= MaxHeight
  }

  /** The state once the script has run: the container hidden, the bubble as styled. */
  function Start(left: int, top: int, width: int, height: int): (p: Panel)
    ensures OneVisible(p) && !Visible(p.containerDisplay)
    ensures !p.dragListening && !p.isResizing && !p.isDragging
  {
    Panel(DisplayNone, DisplayUnset, left, top, false, 0, 0, false, false, 0, 0, 0, 0, width, height)
  }

  /** `toggleFloatingWindow`: show the container and hide the bubble, or the reverse. */
  function Toggled(p: Panel): (r: Panel)
    ensures OneVisible(r)
    ensures Visible(r.containerDisplay) == !Visible(p.containerDisplay)
    ensures OneVisible(p) ==> Visible(r.bubbleDisplay) == !Visible(p.bubbleDisplay)
    ensures r.(containerDisplay := p.containerDisplay, bubbleDisplay := p.bubbleDisplay) == p
  {
    if p.containerDisplay == DisplayNone then
      p.(containerDisplay := DisplayBlock, bubbleDisplay := DisplayNone)
    else
      p.(containerDisplay := DisplayNone, bubbleDisplay := DisplayBlock)
  }

  /** Toggling twice restores which of the two is visible. */
  lemma ToggleTwice(p: Panel)
    requires OneVisible(p)
    ensures Visible(Toggled(Toggled(p)).containerDisplay) == Visible(p.containerDisplay)
    ensures Visible(Toggled(Toggled(p)).bubbleDisplay) == Visible(p.bubbleDisplay)
  {
  }

  /** Bubble mousedown: a new gesture that is not (yet) a drag, anchored at the mouse. */
  function BubblePressed(p: Panel, x: int, y: int): (r: Panel)
    ensures !r.isDragging && r.dragStartX == x && r.dragStartY == y && r.dragListening
    ensures r.(isDragging := p.isDragging, dragStartX := p.dragStartX, dragStartY := p.dragStartY,
               dragListening := p.dragListening) == p
  {
    p.(isDragging := false, dragStartX := x, dragStartY := y, dragListening := true)
  }

  /**
   * The gesture's mousemove listener: a movement within the threshold of the
   * anchor changes nothing; a larger one moves the bubble by the movement,
   * marks the gesture as a drag and re-anchors at the mouse.
   */
  function DragMoved(p: Panel, x: int, y: int): (r: Panel)
    ensures !p.dragListening || !BeyondThreshold(x - p.dragStartX, y - p.dragStartY) ==> r == p
    ensures p.dragListening && BeyondThreshold(x - p.dragStartX, y - p.dragStartY) ==>
      && r.bubbleLeft - p.bubbleLeft == x - p.dragStartX
      && r.bubbleTop - p.bubbleTop == y - p.dragStartY
      && r.isDragging && r.dragStartX == x && r.dragStartY == y
    ensures r.(bubbleLeft := p.bubbleLeft, bubbleTop := p.bubbleTop, isDragging := p.isDragging,
               dragStartX := p.dragStartX, dragStartY := p.dragStartY) == p
  {
    if !p.dragListening then p
    else
      var dx := x - p.dragStartX;
      var dy := y - p.dragStartY;
      if BeyondThreshold(dx, dy) then
        p.(isDragging := true, bubbleLeft := p.bubbleLeft + dx, bubbleTop := p.bubbleTop + dy,
           dragStartX := x, dragStartY := y)
      else p
  }

  /**
   * The gesture's mouseup listener: detaches the gesture and toggles the
   * window exactly when the gesture was not a drag.
   */
  function DragReleased(p: Panel): (r: Panel)
    ensures !r.dragListening
    ensures Visible(r.containerDisplay) != Visible(p.containerDisplay) <==> p.dragListening && !p.isDragging
    ensures OneVisible(p) ==> OneVisible(r)
    ensures r.bubbleLeft == p.bubbleLeft && r.bubbleTop == p.bubbleTop
    ensures r.width == p.width && r.height == p.height && r.isResizing == p.isResizing
    ensures r.(containerDisplay := p.containerDisplay, bubbleDisplay := p.bubbleDisplay,
               dragListening := p.dragListening) == p
    ensures !p.dragListening || p.isDragging ==>
      r.containerDisplay == p.containerDisplay && r.bubbleDisplay == p.bubbleDisplay
  {
    if !p.dragListening then p
    else if !p.isDragging then Toggled(p).(dragListening := false)
    else p.(dragListening := false)
  }

  /** Resize-handle mousedown: remember the size and the mouse. */
  function ResizePressed(p: Panel, x: int, y: int): (r: Panel)
    ensures r.isResizing && r.initialWidth == p.width && r.initialHeight == p.height
    ensures r.initialX == x && r.initialY == y
    ensures r.(isResizing := p.isResizing, initialWidth := p.initialWidth, initialHeight := p.initialHeight,
               initialX := p.initialX, initialY := p.initialY) == p
  {
    p.(isResizing := true, initialWidth := p.width, initialHeight := p.height, initialX := x, initialY := y)
  }

  /** The width requested by the mouse position: it grows to the right. */
  function CandidateWidth(p: Panel, x: int): int {
    p.initialWidth + (x - p.initialX)
  }

  /** The height requested by the mouse position: it grows upwards. */
  function CandidateHeight(p: Panel, y: int): int {
    p.initialHeight - (y - p.initialY)
  }

  /**
   * The document mousemove listener for resizing: each candidate dimension is
   * applied only when it lies within its bounds; otherwise that dimension keeps
   * its previous value (it is not clamped to the bound).
   */
  function ResizeMoved(p: Panel, x: int, y: int): (r: Panel)
    ensures !p.isResizing ==> r == p
    ensures r.width == p.width || (p.isResizing && r.width == CandidateWidth(p, x))
    ensures r.height == p.height || (p.isResizing && r.height == CandidateHeight(p, y))
    ensures p.isResizing && MinWidth <= CandidateWidth(p, x) <= MaxWidth ==> r.width == CandidateWidth(p, x)
    ensures p.isResizing && MinHeight <= CandidateHeight(p, y) <= MaxHeight ==> r.height == CandidateHeight(p, y)
    ensures p.isResizing && !(MinWidth <= CandidateWidth(p, x) <= MaxWidth) ==> r.width == p.width
    ensures p.isResizing && !(MinHeight <= CandidateHeight(p, y) <= MaxHeight) ==> r.height == p.height
    ensures SizeInRange(p) ==> SizeInRange(r)
    ensures r.(width := p.width, height := p.height) == p
  {
    if !p.isResizing then p
    else
      var newWidth := CandidateWidth(p, x);
      var newHeight := CandidateHeight(p, y);
      var w := if MinWidth <= newWidth <= MaxWidth then newWidth else p.width;
      var h := if MinHeight <= newHeight <= MaxHeight then newHeight else p.height;
      p.(width := w, height := h)
  }

  /** The document mouseup listener for resizing. */
  function ResizeReleased(p: Panel): (r: Panel)
    ensures !r.isResizing && r.(isResizing := p.isResizing) == p
  {
    p.(isResizing := false)
  }

  /**
   * A mousemove on the document runs the resize listener (attached when the
   * script ran) and then, when attached, the gesture's listener.
   */
  function MouseMoved(p: Panel, x: int, y: int): (r: Panel)
    ensures r == ResizeMoved(DragMoved(p, x, y), x, y)
    ensures r.width == ResizeMoved(p, x, y).width && r.height == ResizeMoved(p, x, y).height
    ensures r.bubbleLeft == DragMoved(p, x, y).bubbleLeft && r.bubbleTop == DragMoved(p, x, y).bubbleTop
    ensures r.containerDisplay == p.containerDisplay && r.bubbleDisplay == p.bubbleDisplay
    ensures r.dragListening == p.dragListening && r.isResizing == p.isResizing
    ensures SizeInRange(p) ==> SizeInRange(r)
  {
    DragMoved(ResizeMoved(p, x, y), x, y)
  }

  /** A mouseup on the document, listeners in the same order. */
  function MouseReleased(p: Panel): (r: Panel)
    ensures r == ResizeReleased(DragReleased(p))
    ensures !r.isResizing && !r.dragListening
    ensures Visible(r.containerDisplay) != Visible(p.containerDisplay) <==> p.dragListening && !p.isDragging
    ensures OneVisible(p) ==> OneVisible(r)
    ensures r.width == p.width && r.height == p.height
    ensures r.bubbleLeft == p.bubbleLeft && r.bubbleTop == p.bubbleTop
  {
    DragReleased(ResizeReleased(p))
  }

  /** After a mouseup, moving the mouse neither resizes the container nor moves the bubble. */
  lemma NothingMovesAfterRelease(p: Panel, x: int, y: int)
    ensures MouseMoved(MouseReleased(p), x, y) == MouseReleased(p)
  {
  }

  /** A mouse position. */
  datatype Point = Point(x: int, y: int)

  /** The state after a series of mousemoves on the document. */
  function MovedThrough(p: Panel, moves: seq<Point>): Panel
    decreases |moves|
  {
    if moves == [] then p else MovedThrough(MouseMoved(p, moves[0].x, moves[0].y), moves[1..])
  }

  /** No movement of the series leaves the threshold around (x, y). */
  predicate AllWithin(x: int, y: int, moves: seq<Point>) {
    forall i :: 0 <= i < |moves| ==> !BeyondThreshold(moves[i].x - x, moves[i].y - y)
  }

  /** A gesture that has become a drag stays one, and moves never change visibility. */
  lemma {:induction false} DragStaysDrag(p: Panel, moves: seq<Point>)
    requires p.isDragging && p.dragListening
    ensures var q := MovedThrough(p, moves);
      q.isDragging && q.dragListening
      && q.containerDisplay == p.containerDisplay && q.bubbleDisplay == p.bubbleDisplay
    decreases |moves|
  {
    if moves != [] {
      DragStaysDrag(MouseMoved(p, moves[0].x, moves[0].y), moves[1..]);
    }
  }

  /**
   * From a fresh gesture anchored at (x, y), a series of moves makes it a drag
   * exactly when one of the moves leaves the threshold around (x, y); while it
   * is not a drag, the bubble and the anchor stay where they were.
   */
  lemma {:induction false} GestureMoves(p: Panel, x: int, y: int, moves: seq<Point>)
    requires p.dragListening && !p.isDragging && p.dragStartX == x && p.dragStartY == y
    ensures var q := MovedThrough(p, moves);
      && q.dragListening
      && (q.isDragging <==> !AllWithin(x, y, moves))
      && q.containerDisplay == p.containerDisplay && q.bubbleDisplay == p.bubbleDisplay
      && (AllWithin(x, y, moves) ==> q.bubbleLeft == p.bubbleLeft && q.bubbleTop == p.bubbleTop)
    decreases |moves|
  {
    if moves != [] {
      var next := MouseMoved(p, moves[0].x, moves[0].y);
      if BeyondThreshold(moves[0].x - x, moves[0].y - y) {
        DragStaysDrag(next, moves[1..]);
        assert !AllWithin(x, y, moves);
      } else {
        GestureMoves(next, x, y, moves[1..]);
        assert AllWithin(x, y, moves) <==> AllWithin(x, y, moves[1..]) by {
          if AllWithin(x, y, moves[1..]) {
            forall i | 0 <= i < |moves|
              ensures !BeyondThreshold(moves[i].x - x, moves[i].y - y)
            {
              if i > 0 {
                assert moves[i] == moves[1..][i - 1];
              }
            }
          }
        }
      }
    }
  }

  /**
   * Click versus drag: a bubble mousedown at (x, y), any series of mousemoves
   * and the mouseup toggle the window exactly when no move left the threshold
   * around (x, y); in that case the bubble has not moved.
   */
  lemma ClickOrDrag(p: Panel, x: int, y: int, moves: seq<Point>)
    ensures var q := MouseReleased(MovedThrough(BubblePressed(p, x, y), moves));
      && !q.dragListening
      && (Visible(q.containerDisplay) != Visible(p.containerDisplay) <==> AllWithin(x, y, moves))
      && (AllWithin(x, y, moves) ==> q.bubbleLeft == p.bubbleLeft && q.bubbleTop == p.bubbleTop)
  {
    GestureMoves(BubblePressed(p, x, y), x, y, moves);
  }

  /** The events the script reacts to. */
  datatype Event =
    | MinimizeClick
    | BubbleDown(x: int, y: int)
    | HandleDown(x: int, y: int)
    | Move(x: int, y: int)
    | Up

  function Step(p: Panel, e: Event): Panel {
    match e
    case MinimizeClick => Toggled(p)
    case BubbleDown(x, y) => BubblePressed(p, x, y)
    case HandleDown(x, y) => ResizePressed(p, x, y)
    case Move(x, y) => MouseMoved(p, x, y)
    case Up => MouseReleased(p)
  }

  function Run(p: Panel, events: seq<Event>): Panel
    decreases |events|
  {
    if events == [] then p else Run(Step(p, events[0]), events[1..])
  }

  /**
   * Whatever the events, exactly one of container and bubble stays visible,
   * and a size that starts within the bounds stays within them.
   */
  lemma {:induction false} RunKeepsInvariants(p: Panel, events: seq<Event>)
    requires OneVisible(p)
    ensures OneVisible(Run(p, events))
    ensures SizeInRange(p) ==> SizeInRange(Run(p, events))
    decreases |events|
  {
    if events != [] {
      RunKeepsInvariants(Step(p, events[0]), events[1..]);
    }
  }

  /**
   * The resize does not clamp: a mouse position that asks for a width of 700 leaves
   * the width at its previous value, not at the maximum of 600.
   */
  lemma WideRequestKeepsWidth(p: Panel)
    requires p.isResizing && p.initialWidth == 500 && p.initialX == 0 && p.width == 590
    ensures CandidateWidth(p, 200) == 700
    ensures MouseMoved(p, 200, p.initialY).width == 590
  {
  }

  /** The script's mutable state, and its event listeners as methods. */
  class FloatingWindow {
    var containerDisplay: Display
    var bubbleDisplay: Display
    var bubbleLeft: int
    var bubbleTop: int
    var isDragging: bool
    var dragStartX: int
    var dragStartY: int
    var dragListening: bool
    var isResizing: bool
    var initialWidth: int
    var initialHeight: int
    var initialX: int
    var initialY: int
    var width: int
    var height: int

    function State(): Panel
      reads this
    {
      Panel(containerDisplay, bubbleDisplay, bubbleLeft, bubbleTop, isDragging, dragStartX, dragStartY,
            dragListening, isResizing, initialWidth, initialHeight, initialX, initialY, width, height)
    }

    ghost predicate Valid()
      reads this
    {
      OneVisible(State())
    }

    /** The script's set-up, with the stylesheet's bubble position and container size. */
    constructor (left: int, top: int, w: int, h: int)
      ensures State() == Start(left, top, w, h) && Valid()
    {
      containerDisplay := DisplayNone;
      bubbleDisplay := DisplayUnset;
      bubbleLeft, bubbleTop := left, top;
      isDragging, dragStartX, dragStartY, dragListening := false, 0, 0, false;
      isResizing := false;
      initialWidth, initialHeight, initialX, initialY := 0, 0, 0, 0;
      width, height := w, h;
    }

    /** `toggleFloatingWindow`, also the minimize button's click listener. */
    method ToggleFloatingWindow()
      requires Valid()
      modifies this
      ensures State() == Toggled(old(State())) && Valid()
    {
      if containerDisplay == DisplayNone {
        containerDisplay := DisplayBlock;
        bubbleDisplay := DisplayNone;
      } else {
        containerDisplay := DisplayNone;
        bubbleDisplay := DisplayBlock;
      }
    }

    /** The bubble's mousedown listener; attaching the gesture listeners sets `dragListening`. */
    method BubbleMouseDown(x: int, y: int)
      requires Valid()
      modifies this
      ensures State() == BubblePressed(old(State()), x, y) && Valid()
    {
      isDragging := false;
      dragStartX := x;
      dragStartY := y;
      dragListening := true;
    }

    /** The resize handle's mousedown listener. */
    method ResizeMouseDown(x: int, y: int)
      requires Valid()
      modifies this
      ensures State() == ResizePressed(old(State()), x, y) && Valid()
    {
      isResizing := true;
      initialWidth := width;
      initialHeight := height;
      initialX := x;
      initialY := y;
    }

    /** A mousemove on the document: the resize listener, then the gesture's. */
    method DocumentMouseMove(x: int, y: int)
      requires Valid()
      modifies this
      ensures State() == MouseMoved(old(State()), x, y) && Valid()
    {
      if isResizing {
        var newWidth := initialWidth + (x - initialX);
        var newHeight := initialHeight - (y - initialY);
        if MinWidth <= newWidth <= MaxWidth {
          width := newWidth;
        }
        if MinHeight <= newHeight <= MaxHeight {
          height := newHeight;
        }
      }
      if dragListening {
        var dx := x - dragStartX;
        var dy := y - dragStartY;
        if Abs(dx) > DragThreshold || Abs(dy) > DragThreshold {
          isDragging := true;
          bubbleLeft := bubbleLeft + dx;
          bubbleTop := bubbleTop + dy;
          dragStartX := x;
          dragStartY := y;
        }
      }
    }

    /** A mouseup on the document: the resize listener, then the gesture's. */
    method DocumentMouseUp()
      requires Valid()
      modifies this
      ensures State() == MouseReleased(old(State())) && Valid()
    {
      isResizing := false;
      if dragListening {
        dragListening := false;
        if !isDragging {
          ToggleFloatingWindow();
        }
      }
    }
  }
}
