/** The Email window: the shared controller with at least 600×500, 750×600 by default,
    centred then shifted by (100, -20), and the newsletter form. */
module Email {
  import opened Optional
  import opened WindowGeometry

  const MinWidth: real := 600.0
  const MinHeight: real := 500.0
  const DefaultSize: Size := Size(750.0, 600.0)
  const CentreOffset: Point := Point(100.0, -20.0)

  /** The window's geometry and the form's `email` and `submitted` fields. The three-second
      reset timer is counted in `pendingResets`, one per timer not yet fired. */
  class EmailWindow {
    const window: FloatingWindow
    var email: string
    var submitted: bool
    var pendingResets: nat

    constructor ()
      ensures fresh(window) && window.Valid() && window.Mounted()
      ensures window.minWidth == MinWidth && window.minHeight == MinHeight
      ensures window.defaultSize == DefaultSize && window.centreOffset == CentreOffset
      ensures email == [] && !submitted && pendingResets == 0
    {
      window := new FloatingWindow(MinWidth, MinHeight, DefaultSize, CentreOffset);
      email := [];
      submitted := false;
      pendingResets := 0;
    }

    /** The input's `onChange`. */
    method EditEmail(value: string)
      modifies this`email
      ensures email == value
    {
      email := value;
    }

    /** `handleSubmit`: a non-empty address marks the form submitted and starts the reset
        timer; an empty one changes nothing. */
    method Submit()
      modifies this`submitted, this`pendingResets
      ensures email != [] ==> submitted && pendingResets == old(pendingResets) + 1
      ensures email == [] ==> submitted == old(submitted) && pendingResets == old(pendingResets)
    {
      if email != [] {
        submitted := true;
        pendingResets := pendingResets + 1;
      }
    }

    /** A reset timer fires: the address is cleared and the form shown again. */
    method ResetTimerFires()
      requires pendingResets > 0
      modifies this`email, this`submitted, this`pendingResets
      ensures email == [] && !submitted && pendingResets == old(pendingResets) - 1
    {
      email := [];
      submitted := false;
      pendingResets := pendingResets - 1;
    }
  }

  /** A session in a 1920×1080 viewport, with resize steps run by the handler's own
      arithmetic (`FloatingWindow.MouseMove`, which does not re-centre after a step; as written
      each step re-centres): the window opens at (685, 220); a top-left drag of
      (-50, 200) gives 800×500 (the height clamped from 400) at (635, 420); submitting an
      address shows the confirmation until the timer clears it; an empty submit does nothing. */
  method Session() returns (centred: Point, resized: Frame, shown: bool, afterReset: bool, emptySubmit: bool)
    ensures centred == Point(685.0, 220.0)
    ensures resized == Frame(Point(635.0, 420.0), Size(800.0, 500.0))
    ensures shown && !afterReset && !emptySubmit
  {
    var viewport := Size(1920.0, 1080.0);
    var mail := new EmailWindow();
    var w := mail.window;
    w.Open(viewport);
    centred := w.position;

    w.ResizeBegin(Point(685.0, 220.0), Rect(685.0, 220.0, 750.0, 600.0), TopLeft);
    w.MouseMove(Point(635.0, 420.0));
    w.MouseUp();
    resized := w.Rendered(viewport).value;

    mail.EditEmail("fan@example.com");
    mail.Submit();
    shown := mail.submitted;
    mail.ResetTimerFires();
    afterReset := mail.submitted;
    mail.Submit();
    emptySubmit := mail.submitted;
  }

}
