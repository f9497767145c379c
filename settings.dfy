/** The Settings window: the shared controller with at least 500×400, 900×550 by default,
    centred with no offset, and the click-to-focus rule for buttons, inputs and links. */
module Settings {
  import opened Optional
  import opened WindowGeometry

  const MinWidth: real := 500.0
  const MinHeight: real := 400.0
  const DefaultSize: Size := Size(900.0, 550.0)
  const CentreOffset: Point := Point(0.0, 0.0)

  /** The window as first mounted: closed, with the Settings constants. */
  method NewSettingsWindow() returns (w: FloatingWindow)
    ensures fresh(w) && w.Valid() && w.Mounted()
    ensures w.minWidth == MinWidth && w.minHeight == MinHeight
    ensures w.defaultSize == DefaultSize && w.centreOffset == CentreOffset
  {
    w := new FloatingWindow(MinWidth, MinHeight, DefaultSize, CentreOffset);
  }

  /** Whether a click, given as the tag names from its target up to the window, raises the
      window. */
  function ClickRaises(ancestry: seq<string>): (r: bool)
    requires |ancestry| > 0
    ensures r <==> "BUTTON" !in ancestry && "INPUT" !in ancestry && "A" !in ancestry
  {
    RaisesFocus(ancestry, ControlTags)
  }

  /** A session in a 1920×1080 viewport, run with the handler's own arithmetic
      (`FloatingWindow.MouseMove`, which does not re-centre after a resize step; as written
      each step re-centres): the window opens at (510, 265); dragging the top
      handle 300 down from there clamps the height at 400 while the origin still moves down
      by 300; a later width-only drag of the right handle keeps the start height. */
  method ResizeSession() returns (centred: Point, clamped: Frame, widened: Frame)
    ensures centred == Point(510.0, 265.0)
    ensures clamped == Frame(Point(510.0, 565.0), Size(900.0, 400.0))
    ensures widened == Frame(Point(510.0, 565.0), Size(1000.0, 400.0))
  {
    var viewport := Size(1920.0, 1080.0);
    var w := NewSettingsWindow();
    w.Open(viewport);
    centred := w.position;

    w.ResizeBegin(Point(960.0, 265.0), Rect(510.0, 265.0, 900.0, 550.0), Top);
    w.MouseMove(Point(960.0, 565.0));
    w.MouseUp();
    clamped := w.Rendered(viewport).value;

    w.ResizeBegin(Point(1410.0, 700.0), Rect(510.0, 565.0, 900.0, 400.0), Right);
    w.MouseMove(Point(1510.0, 650.0));
    w.MouseUp();
    widened := w.Rendered(viewport).value;
  }

  /** A maximized Settings window fills the 1920×1080 viewport at the origin and refuses a
      drag by its title bar. */
  method MaximizedSession() returns (maximized: Frame)
    ensures maximized == Frame(Point(0.0, 0.0), Size(1920.0, 1080.0))
  {
    var viewport := Size(1920.0, 1080.0);
    var w := NewSettingsWindow();
    w.Open(viewport);
    w.ToggleMaximize(viewport);
    w.MouseDown(Point(100.0, 10.0), Rect(0.0, 0.0, 1920.0, 1080.0));
    w.MouseMove(Point(300.0, 200.0));
    maximized := w.Rendered(viewport).value;
  }

}
