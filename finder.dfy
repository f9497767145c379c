/** Finder's window: the shared controller with at least 600×400, 900×550 by default,
    centred with no offset. */
module Finder {
  import opened Optional
  import opened WindowGeometry

  const MinWidth: real := 600.0
  const MinHeight: real := 400.0
  const DefaultSize: Size := Size(900.0, 550.0)
  const CentreOffset: Point := Point(0.0, 0.0)

  /** The window as first mounted: closed, with Finder's constants. */
  method NewFinderWindow() returns (w: FloatingWindow)
    ensures fresh(w) && w.Valid() && w.Mounted()
    ensures w.minWidth == MinWidth && w.minHeight == MinHeight
    ensures w.defaultSize == DefaultSize && w.centreOffset == CentreOffset
  {
    w := new FloatingWindow(MinWidth, MinHeight, DefaultSize, CentreOffset);
  }

  /** A session in a 1920×1080 viewport, run with the handler's own arithmetic
      (`FloatingWindow.MouseMove`, which does not re-centre after a resize step): the window
      opens centred at (510, 265); dragging the bottom-right handle by (50, 30) grows it to
      950×580 in place; dragging the left handle 400 to the right clamps the width at 600
      but still moves the origin by 400; maximize then restore brings back the origin with
      the default size. As written, the first step instead leaves the grown window re-centred
      at (485, 250): `grownAsWritten`. */
  method ResizeSession() returns (centred: Point, grown: Frame, grownAsWritten: Frame, clamped: Frame,
                                  restored: Frame)
    ensures centred == Point(510.0, 265.0)
    ensures grown == Frame(Point(510.0, 265.0), Size(950.0, 580.0))
    ensures grownAsWritten == Frame(Point(485.0, 250.0), Size(950.0, 580.0))
    ensures clamped == Frame(Point(910.0, 265.0), Size(600.0, 580.0))
    ensures restored == Frame(Point(910.0, 265.0), DefaultSize)
  {
    var viewport := Size(1920.0, 1080.0);
    var w := NewFinderWindow();
    w.Open(viewport);
    centred := w.position;

    w.ResizeBegin(Point(1410.0, 815.0), Rect(510.0, 265.0, 900.0, 550.0), BottomRight);
    w.MouseMove(Point(1460.0, 845.0));
    w.MouseUp();
    grown := w.Rendered(viewport).value;
    grownAsWritten := ResizedFrameAsWritten(BottomRight, ResizeStart(1410.0, 815.0, 900.0, 550.0),
                                            Point(1460.0, 845.0), MinWidth, MinHeight, viewport, CentreOffset);

    w.ResizeBegin(Point(510.0, 500.0), Rect(510.0, 265.0, 950.0, 580.0), Left);
    w.MouseMove(Point(910.0, 500.0));
    w.MouseUp();
    clamped := w.Rendered(viewport).value;

    MaximizeThenRestore(w, viewport);
    restored := w.Rendered(viewport).value;
  }

}
