/** The collaborators the buttons call but do not define: input events, the
    rectangle a component was last drawn into, the exclusive mouse-capture
    token and the focus flag. Only the parts the buttons read are modelled. */
module ComponentBase {

  datatype MouseButton = Left | Middle | Right | NoButton | WheelUp | WheelDown

  datatype Motion = Released | Pressed

  /** A mouse event: which button, what it did, and where (terminal cells). */
  datatype Mouse = Mouse(button: MouseButton, motion: Motion, x: int, y: int)

  datatype Key =
    | Return
    | Escape
    | Tab
    | Backspace
    | ArrowUp
    | ArrowDown
    | ArrowLeft
    | ArrowRight
    | Character(c: char)

  /** An input event is either a keystroke or a mouse action. */
  datatype Event = KeyEvent(key: Key) | MouseEvent(mouse: Mouse)
  {
    predicate IsMouse() { MouseEvent? }
  }

  /** An axis-aligned rectangle whose bounds are inclusive. */
  datatype Box = Box(xMin: int, xMax: int, yMin: int, yMax: int)
  {
    predicate Contain(x: int, y: int) {
      xMin <= x <= xMax && yMin <= y <= yMax
    }
  }

  /** The rectangle of a component that has not been drawn yet: every bound is 0. */
  const UndrawnBox := Box(0, 0, 0, 0)

  /** True when `event` is a mouse event inside `box`. */
  predicate Hits(event: Event, box: Box) {
    event.IsMouse() && box.Contain(event.mouse.x, event.mouse.y)
  }

  /** The one process-wide mouse-capture token: at most one holder at a time. */
  class MouseCapture {
    var held: bool

    constructor ()
      ensures !held
    {
      held := false;
    }

    /** Asks for the token; it is granted exactly when nobody holds it. */
    method TryCapture() returns (granted: bool)
      modifies this
      ensures granted <==> !old(held)
      ensures held
    {
      granted := !held;
      held := true;
    }

    /** Gives the token back; called by the holder when its grant ends. */
    method Release()
      modifies this
      ensures !held
    {
      held := false;
    }
  }
}
