/**
 * The floating-window controller that Finder, TextEdit, Email, SafariBrowser and Settings
 * each carry a copy of: drag by the title bar, resize by eight handles clamped to a minimum
 * size, maximize/restore, the two-step close, and the click-to-focus rule. The copies
 * differ in four constants: the minimum width and height, the default size and the offset
 * added to the centred position. TextEdit's copy also ignores clicks on a text area and
 * saves and clears the editor on close; the TextEdit module models both. Coordinates are
 * JavaScript numbers, modelled as `real`.
 */
module WindowGeometry {
  import opened JsString
  import opened Optional

  datatype Point = Point(x: real, y: real)

  datatype Size = Size(width: real, height: real)

  /** What `getBoundingClientRect()` reports of the window's element. */
  datatype Rect = Rect(left: real, top: real, width: real, height: real)

  /** `resizeStart`: the pointer and the window's size when a resize began. */
  datatype ResizeStart = ResizeStart(x: real, y: real, width: real, height: real)

  /** What the window draws: its origin and its size. */
  datatype Frame = Frame(origin: Point, size: Size)

  /** The eight resize handles. */
  datatype Handle = Top | Bottom | Left | Right | TopLeft | TopRight | BottomLeft | BottomRight

  /** The direction string each handle passes to `handleResizeStart`. */
  function HandleName(h: Handle): string {
    match h
    case Top => "top"
    case Bottom => "bottom"
    case Left => "left"
    case Right => "right"
    case TopLeft => "top-left"
    case TopRight => "top-right"
    case BottomLeft => "bottom-left"
    case BottomRight => "bottom-right"
  }

  /** Which end of one axis a handle drags: the start (left or top edge), the end (right or
      bottom edge), or neither. */
  datatype Edge = StartEdge | EndEdge | NoEdge

  function HorizontalEdge(h: Handle): Edge {
    match h
    case Left | TopLeft | BottomLeft => StartEdge
    case Right | TopRight | BottomRight => EndEdge
    case Top | Bottom => NoEdge
  }

  function VerticalEdge(h: Handle): Edge {
    match h
    case Top | TopLeft | TopRight => StartEdge
    case Bottom | BottomLeft | BottomRight => EndEdge
    case Left | Right => NoEdge
  }

  /** The `includes("right")` test of the resize step picks out exactly the handles that
      drag the right edge. */
  lemma NameIncludesRight(h: Handle)
    ensures Includes(HandleName(h), "right") <==> HorizontalEdge(h) == EndEdge
  {
    match h
    case Right =>
      IndexOfAtMost("right", "right", 0);
    case TopRight =>
      assert "top-right"[4..9] == "right";
      IndexOfAtMost("top-right", "right", 4);
    case BottomRight =>
      assert "bottom-right"[7..12] == "right";
      IndexOfAtMost("bottom-right", "right", 7);
    case Top | Bottom | Left | TopLeft | BottomLeft =>
      assert 'i' !in HandleName(h);
      NotIncludesWithout(HandleName(h), "right", 1);
  }

  /** `includes("left")` picks out exactly the handles that drag the left edge. */
  lemma NameIncludesLeft(h: Handle)
    ensures Includes(HandleName(h), "left") <==> HorizontalEdge(h) == StartEdge
  {
    match h
    case Left =>
      IndexOfAtMost("left", "left", 0);
    case TopLeft =>
      assert "top-left"[4..8] == "left";
      IndexOfAtMost("top-left", "left", 4);
    case BottomLeft =>
      assert "bottom-left"[7..11] == "left";
      IndexOfAtMost("bottom-left", "left", 7);
    case Top | Bottom | Right | TopRight | BottomRight =>
      assert 'l' !in HandleName(h);
      NotIncludesWithout(HandleName(h), "left", 0);
  }

  /** `includes("bottom")` picks out exactly the handles that drag the bottom edge. */
  lemma NameIncludesBottom(h: Handle)
    ensures Includes(HandleName(h), "bottom") <==> VerticalEdge(h) == EndEdge
  {
    match h
    case Bottom =>
      IndexOfAtMost("bottom", "bottom", 0);
    case BottomLeft =>
      assert "bottom-left"[..6] == "bottom";
      IndexOfAtMost("bottom-left", "bottom", 0);
    case BottomRight =>
      assert "bottom-right"[..6] == "bottom";
      IndexOfAtMost("bottom-right", "bottom", 0);
    case Top | Left | Right | TopLeft | TopRight =>
      assert 'b' !in HandleName(h);
      NotIncludesWithout(HandleName(h), "bottom", 0);
  }

  /** `includes("top")` picks out exactly the handles that drag the top edge. */
  lemma NameIncludesTop(h: Handle)
    ensures Includes(HandleName(h), "top") <==> VerticalEdge(h) == StartEdge
  {
    match h
    case Top =>
      IndexOfAtMost("top", "top", 0);
    case TopLeft =>
      assert "top-left"[..3] == "top";
      IndexOfAtMost("top-left", "top", 0);
    case TopRight =>
      assert "top-right"[..3] == "top";
      IndexOfAtMost("top-right", "top", 0);
    case Bottom | Left | Right | BottomLeft | BottomRight =>
      assert 'p' !in HandleName(h);
      NotIncludesWithout(HandleName(h), "top", 2);
  }

  /** `Math.max`. */
  function Max(a: real, b: real): (r: real)
    ensures r >= a && r >= b && (r == a || r == b)
  {
    if a >= b then a else b
  }

  /** The width a resize move gives: the start width grown by the pointer's travel when
      the right edge is dragged, shrunk by it when the left edge is, never below the
      minimum; the start width when neither is. */
  function ResizedWidth(h: Handle, start: ResizeStart, pointer: Point, minWidth: real): real {
    match HorizontalEdge(h)
    case EndEdge => Max(minWidth, start.width + (pointer.x - start.x))
    case StartEdge => Max(minWidth, start.width - (pointer.x - start.x))
    case NoEdge => start.width
  }

  function ResizedHeight(h: Handle, start: ResizeStart, pointer: Point, minHeight: real): real {
    match VerticalEdge(h)
    case EndEdge => Max(minHeight, start.height + (pointer.y - start.y))
    case StartEdge => Max(minHeight, start.height - (pointer.y - start.y))
    case NoEdge => start.height
  }

  /** The origin a resize move gives: the origin at resize start, moved by the pointer's
      travel along each axis whose start edge is dragged. */
  function ResizedOrigin(h: Handle, start: ResizeStart, origin: Point, pointer: Point): Point {
    Point(
      if HorizontalEdge(h) == StartEdge then origin.x + (pointer.x - start.x) else origin.x,
      if VerticalEdge(h) == StartEdge then origin.y + (pointer.y - start.y) else origin.y)
  }

  /** One resize step of `handleMouseMove`: the `let` variables and the chain of
      `includes` tests on the direction string, from the snapshots taken at resize start. */
  method ResizeStep(direction: Handle, start: ResizeStart, origin: Point, pointer: Point,
                    minWidth: real, minHeight: real)
    returns (newPosition: Point, newSize: Size)
    ensures newSize == Size(ResizedWidth(direction, start, pointer, minWidth),
                            ResizedHeight(direction, start, pointer, minHeight))
    ensures newPosition == ResizedOrigin(direction, start, origin, pointer)
  {
    var deltaX := pointer.x - start.x;
    var deltaY := pointer.y - start.y;
    var newWidth := start.width;
    var newHeight := start.height;
    var newX := origin.x;
    var newY := origin.y;
    var name := HandleName(direction);
    NameIncludesRight(direction);
    NameIncludesLeft(direction);
    NameIncludesBottom(direction);
    NameIncludesTop(direction);
    if Includes(name, "right") {
      newWidth := Max(minWidth, start.width + deltaX);
    }
    if Includes(name, "left") {
      newWidth := Max(minWidth, start.width - deltaX);
      newX := origin.x + deltaX;
    }
    if Includes(name, "bottom") {
      newHeight := Max(minHeight, start.height + deltaY);
    }
    if Includes(name, "top") {
      newHeight := Max(minHeight, start.height - deltaY);
      newY := origin.y + deltaY;
    }
    newSize := Size(newWidth, newHeight);
    newPosition := Point(newX, newY);
  }

  /** A resize never leaves a dragged axis below its minimum, and leaves an undragged axis
      at its start extent. */
  lemma ResizeRespectsMinimum(h: Handle, start: ResizeStart, pointer: Point, minWidth: real, minHeight: real)
    ensures HorizontalEdge(h) != NoEdge ==> ResizedWidth(h, start, pointer, minWidth) >= minWidth
    ensures HorizontalEdge(h) == NoEdge ==> ResizedWidth(h, start, pointer, minWidth) == start.width
    ensures VerticalEdge(h) != NoEdge ==> ResizedHeight(h, start, pointer, minHeight) >= minHeight
    ensures VerticalEdge(h) == NoEdge ==> ResizedHeight(h, start, pointer, minHeight) == start.height
  {
  }

  /** Dragging the right edge grows or shrinks the width by the pointer's travel, down to
      the minimum, and moves nothing else. */
  lemma RightResize(start: ResizeStart, origin: Point, pointer: Point, minWidth: real, minHeight: real)
    ensures ResizedWidth(Right, start, pointer, minWidth) == Max(minWidth, start.width + (pointer.x - start.x))
    ensures ResizedHeight(Right, start, pointer, minHeight) == start.height
    ensures ResizedOrigin(Right, start, origin, pointer) == origin
  {
  }

  /** Dragging a left edge moves the origin by the pointer's travel even when the width is
      clamped: the right edge stays put exactly when the width is not clamped, and moves
      right otherwise. */
  lemma LeftEdgeResize(h: Handle, start: ResizeStart, origin: Point, pointer: Point, minWidth: real)
    requires HorizontalEdge(h) == StartEdge
    ensures var x := ResizedOrigin(h, start, origin, pointer).x;
            var w := ResizedWidth(h, start, pointer, minWidth);
            x == origin.x + (pointer.x - start.x) &&
            (start.width - (pointer.x - start.x) >= minWidth ==> x + w == origin.x + start.width) &&
            (start.width - (pointer.x - start.x) < minWidth ==> x + w > origin.x + start.width)
  {
  }

  /** Dragging a top edge: the same on the vertical axis. */
  lemma TopEdgeResize(h: Handle, start: ResizeStart, origin: Point, pointer: Point, minHeight: real)
    requires VerticalEdge(h) == StartEdge
    ensures var y := ResizedOrigin(h, start, origin, pointer).y;
            var ht := ResizedHeight(h, start, pointer, minHeight);
            y == origin.y + (pointer.y - start.y) &&
            (start.height - (pointer.y - start.y) >= minHeight ==> y + ht == origin.y + start.height) &&
            (start.height - (pointer.y - start.y) < minHeight ==> y + ht > origin.y + start.height)
  {
  }

  /** The position of a window of the given size centred in the viewport, then shifted by
      `offset`: `(viewport - size) / 2 + offset` on each axis. */
  function Centred(viewport: Size, size: Size, offset: Point): (p: Point)
    ensures 2.0 * (p.x - offset.x) == viewport.width - size.width
    ensures 2.0 * (p.y - offset.y) == viewport.height - size.height
  {
    Point((viewport.width - size.width) / 2.0 + offset.x, (viewport.height - size.height) / 2.0 + offset.y)
  }

  /** A resize step as the component runs it: the handler stores the new size and origin,
      but `savedSize` is a dependency of the centring effect and every step stores a new
      size object, so the effect then re-centres the window for its new size and the
      handler's origin is lost. */
  function ResizedFrameAsWritten(h: Handle, start: ResizeStart, pointer: Point, minWidth: real,
                                 minHeight: real, viewport: Size, offset: Point): (r: Frame)
    ensures r.size == Size(ResizedWidth(h, start, pointer, minWidth), ResizedHeight(h, start, pointer, minHeight))
    ensures 2.0 * (r.origin.x - offset.x) + r.size.width == viewport.width
    ensures 2.0 * (r.origin.y - offset.y) + r.size.height == viewport.height
  {
    var size := Size(ResizedWidth(h, start, pointer, minWidth), ResizedHeight(h, start, pointer, minHeight));
    Frame(Centred(viewport, size, offset), size)
  }

  /** As written, widening a centred window by its right handle moves its left edge, which
      nobody dragged, left by half the pointer's travel; the handler meant it to stay. */
  lemma RightResizeRecentres(start: ResizeStart, origin: Point, pointer: Point, minWidth: real,
                             minHeight: real, viewport: Size, offset: Point)
    requires origin == Centred(viewport, Size(start.width, start.height), offset)
    requires start.width + (pointer.x - start.x) >= minWidth
    ensures ResizedFrameAsWritten(Right, start, pointer, minWidth, minHeight, viewport, offset).origin.x
            == origin.x - (pointer.x - start.x) / 2.0
    ensures ResizedOrigin(Right, start, origin, pointer).x == origin.x
  {
  }

  /** `element.closest(tag)` for a click target given as its tag name followed by those of
      its ancestors: some element on that path has the tag. */
  function Closest(ancestry: seq<string>, tag: string): (r: bool)
    ensures r <==> tag in ancestry
  {
    if ancestry == [] then false
    else ancestry[0] == tag || Closest(ancestry[1..], tag)
  }

  /** The tags whose clicks do not raise a window: buttons, inputs and links. */
  const ControlTags: set<string> := {"BUTTON", "INPUT", "A"}

  /** The click handler on the window body: it calls `onFocus` unless the target's tag, or
      the tag of any of its ancestors, is one of `controls`. */
  function RaisesFocus(ancestry: seq<string>, controls: set<string>): (r: bool)
    requires |ancestry| > 0
    ensures r <==> forall i :: 0 <= i < |ancestry| ==> ancestry[i] !in controls
  {
    !(ancestry[0] in controls || exists tag :: tag in controls && Closest(ancestry, tag))
  }

  /**
   * One window's geometry and lifecycle state, with the handlers that assign it.
   * `isOpen` and `isMinimized` are the flags the parent passes in; `onClose` and
   * `onMinimize` are modelled by the parent clearing or setting them.
   */
  class FloatingWindow {
    const minWidth: real
    const minHeight: real
    const defaultSize: Size
    const centreOffset: Point

    var isOpen: bool
    var isMinimized: bool
    var isClosing: bool
    var position: Point
    var isDragging: bool
    var dragOffset: Point
    var isResizing: bool
    var resizeDirection: Option<Handle>
    var resizeStart: ResizeStart
    var isMaximized: bool
    var savedPosition: Point
    var savedSize: Size

    /** A resize is in progress exactly when a direction is recorded. */
    ghost predicate Valid()
      reads this
    {
      isResizing <==> resizeDirection.Some?
    }

    /** The state a window is mounted in: closed and idle, at the origin, with the
        default size. */
    ghost predicate Mounted()
      reads this
    {
      && !isOpen && !isMinimized && !isClosing && !isDragging && !isResizing && !isMaximized
      && resizeDirection == None && resizeStart == ResizeStart(0.0, 0.0, 0.0, 0.0)
      && position == Point(0.0, 0.0) && dragOffset == Point(0.0, 0.0)
      && savedPosition == Point(0.0, 0.0) && savedSize == defaultSize
    }

    constructor (minWidth: real, minHeight: real, defaultSize: Size, centreOffset: Point)
      ensures Valid() && Mounted()
      ensures this.minWidth == minWidth && this.minHeight == minHeight
      ensures this.defaultSize == defaultSize && this.centreOffset == centreOffset
    {
      this.minWidth := minWidth;
      this.minHeight := minHeight;
      this.defaultSize := defaultSize;
      this.centreOffset := centreOffset;
      isOpen, isMinimized, isClosing := false, false, false;
      position, dragOffset := Point(0.0, 0.0), Point(0.0, 0.0);
      isDragging, isResizing, isMaximized := false, false, false;
      resizeDirection := None;
      resizeStart := ResizeStart(0.0, 0.0, 0.0, 0.0);
      savedPosition := Point(0.0, 0.0);
      savedSize := defaultSize;
    }

    /** What is drawn: nothing while closed or minimized; otherwise the window at its
        position, the size of the viewport when maximized and `savedSize` when not. */
    function Rendered(viewport: Size): (r: Option<Frame>)
      reads this
      ensures r.None? <==> !isOpen || isMinimized
      ensures r.Some? ==> r.value.origin == position
      ensures r.Some? && isMaximized ==> r.value.size == viewport
      ensures r.Some? && !isMaximized ==> r.value.size == savedSize
    {
      if !isOpen || isMinimized then None
      else Some(Frame(position, if isMaximized then viewport else savedSize))
    }

    /** Both coordinates of the saved position are non-zero: the restore effect's test for
        a position worth going back to. */
    predicate HasSavedPosition()
      reads this
    {
      savedPosition.x != 0.0 && savedPosition.y != 0.0
    }

    /** The two layout effects, in their declaration order, as a commit runs them after
        `isOpen` or `isMaximized` changed: the centring effect (only while the window is
        drawn and not maximized), then the restore effect, which pins a maximized window to
        the origin and otherwise moves an open window to a saved position with non-zero
        coordinates. The later assignment wins. */
    method RunLayoutEffects(viewport: Size)
      modifies this`position
      ensures isMaximized ==> position == Point(0.0, 0.0)
      ensures !isMaximized && isOpen && HasSavedPosition() ==> position == savedPosition
      ensures !isMaximized && !(isOpen && HasSavedPosition()) && isOpen && !isMinimized ==>
        position == Centred(viewport, savedSize, centreOffset)
      ensures !isMaximized && !(isOpen && HasSavedPosition()) && !(isOpen && !isMinimized) ==>
        position == old(position)
    {
      if isOpen && !isMinimized && !isMaximized {
        position := Centred(viewport, savedSize, centreOffset);
      }
      if isMaximized {
        position := Point(0.0, 0.0);
      } else if isOpen && HasSavedPosition() {
        position := savedPosition;
      }
    }

    /** The parent opens a closed window and the layout effects run: an unmaximized window
        goes back to its saved position when it has one, and is otherwise centred in the
        viewport, shifted by this window's offset. Opening an open window changes nothing. */
    method Open(viewport: Size)
      modifies this`isOpen, this`position
      ensures isOpen
      ensures old(isOpen) ==> position == old(position)
      ensures !old(isOpen) && isMaximized ==> position == Point(0.0, 0.0)
      ensures !old(isOpen) && !isMaximized && HasSavedPosition() ==> position == savedPosition
      ensures !old(isOpen) && !isMaximized && !HasSavedPosition() ==>
        position == if isMinimized then old(position) else Centred(viewport, savedSize, centreOffset)
    {
      if !isOpen {
        isOpen := true;
        RunLayoutEffects(viewport);
      }
    }

    /** `handleMouseDown` on the title bar: unless maximized, record the pointer's offset
        from the window's corner and start dragging. */
    method MouseDown(pointer: Point, rect: Rect)
      modifies this`dragOffset, this`isDragging
      ensures isMaximized ==> dragOffset == old(dragOffset) && isDragging == old(isDragging)
      ensures !isMaximized ==> dragOffset == Point(pointer.x - rect.left, pointer.y - rect.top) && isDragging
    {
      if !isMaximized {
        dragOffset := Point(pointer.x - rect.left, pointer.y - rect.top);
        isDragging := true;
      }
    }

    /** `handleMouseMove`: while dragging an unmaximized window, its corner follows the
        pointer at the recorded offset; otherwise, while resizing, size and position are
        computed afresh from the resize-start snapshots. */
    method MouseMove(pointer: Point)
      requires Valid()
      modifies this`position, this`savedSize
      ensures isDragging && !isMaximized ==>
        position == Point(pointer.x - dragOffset.x, pointer.y - dragOffset.y) && savedSize == old(savedSize)
      ensures !(isDragging && !isMaximized) && isResizing ==>
        position == ResizedOrigin(resizeDirection.value, resizeStart, savedPosition, pointer) &&
        savedSize == Size(ResizedWidth(resizeDirection.value, resizeStart, pointer, minWidth),
                          ResizedHeight(resizeDirection.value, resizeStart, pointer, minHeight))
      ensures !(isDragging && !isMaximized) && !isResizing ==>
        position == old(position) && savedSize == old(savedSize)
    {
      if isDragging && !isMaximized {
        position := Point(pointer.x - dragOffset.x, pointer.y - dragOffset.y);
      } else if isResizing && resizeDirection.Some? {
        var newPosition, newSize := ResizeStep(resizeDirection.value, resizeStart, savedPosition, pointer, minWidth, minHeight);
        savedSize := newSize;
        position := newPosition;
      }
    }

    /** `handleMouseUp`: ends any drag and any resize. */
    method MouseUp()
      modifies this`isDragging, this`isResizing, this`resizeDirection
      ensures Valid()
      ensures !isDragging && !isResizing && resizeDirection == None
    {
      isDragging := false;
      isResizing := false;
      resizeDirection := None;
    }

    /** `handleResizeStart`: unless maximized, snapshot the pointer, the drawn size and the
        position, and start resizing by the given handle. */
    method ResizeBegin(pointer: Point, rect: Rect, direction: Handle)
      requires Valid()
      modifies this`resizeStart, this`resizeDirection, this`isResizing, this`savedPosition
      ensures Valid()
      ensures isMaximized ==>
        resizeStart == old(resizeStart) && resizeDirection == old(resizeDirection) &&
        isResizing == old(isResizing) && savedPosition == old(savedPosition)
      ensures !isMaximized ==>
        resizeStart == ResizeStart(pointer.x, pointer.y, rect.width, rect.height) &&
        resizeDirection == Some(direction) && isResizing && savedPosition == position
    {
      if !isMaximized {
        resizeStart := ResizeStart(pointer.x, pointer.y, rect.width, rect.height);
        resizeDirection := Some(direction);
        isResizing := true;
        savedPosition := position;
      }
    }

    /** `handleMaximize` and the layout effects it sets off. Maximizing saves the position,
        resets the size to the default and pins the window to the origin. Restoring puts
        the window back at the saved position; the effects then re-centre it, and move it
        to the saved position again only when both its coordinates are non-zero. */
    method ToggleMaximize(viewport: Size)
      modifies this`isMaximized, this`position, this`savedPosition, this`savedSize
      ensures isMaximized == !old(isMaximized)
      ensures old(isMaximized) ==>
        savedPosition == old(savedPosition) && savedSize == old(savedSize) &&
        position == (if isOpen && HasSavedPosition() then savedPosition
                     else if isOpen && !isMinimized then Centred(viewport, savedSize, centreOffset)
                     else savedPosition)
      ensures !old(isMaximized) ==>
        savedPosition == old(position) && savedSize == defaultSize && position == Point(0.0, 0.0)
    {
      if isMaximized {
        isMaximized := false;
        position := savedPosition;
      } else {
        savedPosition := position;
        savedSize := defaultSize;
        isMaximized := true;
        position := Point(0.0, 0.0);
      }
      RunLayoutEffects(viewport);
    }

    /** `handleMinimize`: the parent's `onMinimize` hides the window; its geometry is kept. */
    method Minimize()
      modifies this`isMinimized
      ensures isMinimized
    {
      isMinimized := true;
    }

    /** `handleClose`, first half: start the closing animation. */
    method BeginClose()
      modifies this`isClosing
      ensures isClosing
    {
      isClosing := true;
    }

    /** `handleClose`, second half (the 150 ms timer): clear the closing and maximized
        flags and call `onClose`, whose parent clears the open flag. */
    method FinishClose()
      modifies this`isClosing, this`isMaximized, this`isOpen
      ensures !isClosing && !isMaximized && !isOpen
    {
      isClosing := false;
      isMaximized := false;
      isOpen := false;
    }
  }


  /** Pressing on the title bar and releasing without moving leaves an unmaximized window
      where it was, when the press reports the window's drawn corner. */
  method DragWithoutMoving(w: FloatingWindow, pointer: Point, drawn: Size)
    requires w.Valid() && !w.isMaximized
    modifies w
    ensures w.Valid()
    ensures w.position == old(w.position) && w.savedSize == old(w.savedSize)
    ensures !w.isDragging && !w.isResizing
  {
    w.MouseDown(pointer, Rect(w.position.x, w.position.y, drawn.width, drawn.height));
    w.MouseMove(pointer);
    w.MouseUp();
  }

  /** Maximize followed by restore gives the default size, not the size the window had,
      and brings the window back to where it was only when neither of its coordinates was
      zero; otherwise it comes back centred. */
  method MaximizeThenRestore(w: FloatingWindow, viewport: Size)
    requires w.isOpen && !w.isMinimized && !w.isMaximized
    modifies w
    ensures old(w.position.x) != 0.0 && old(w.position.y) != 0.0 ==>
      w.Rendered(viewport) == Some(Frame(old(w.position), w.defaultSize))
    ensures !(old(w.position.x) != 0.0 && old(w.position.y) != 0.0) ==>
      w.Rendered(viewport) == Some(Frame(Centred(viewport, w.defaultSize, w.centreOffset), w.defaultSize))
  {
    w.ToggleMaximize(viewport);
    assert w.Rendered(viewport) == Some(Frame(Point(0.0, 0.0), viewport));
    w.ToggleMaximize(viewport);
  }

}
