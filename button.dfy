/** The two button widgets: `Button`, which draws its text inverted when
    focused, and `AnimatedButton`, which fades between two colour pairs.
    Both share one event-handling decision procedure, `React`, whose effect on
    a button's state is `Deliver`; the classes are proved against them. */
module Buttons {
  import opened ComponentBase
  import opened ComponentOptions

  // ---------------------------------------------------------------------------
  // What a render asks the renderer to draw

  /** The frame around the text: `nothing`, `border` or `borderEmpty`. */
  datatype Frame = NoFrame | SolidFrame | BlankFrame

  /** The plain button's drawing: its text, whether it is inverted, its frame. */
  datatype Look = Look(text: string, inverted: bool, frame: Frame)

  /** A colour `t` of the way from `from` (t = 0) to `to` (t = 1). */
  datatype Paint = Blend(t: real, from: Color, to: Color)

  /** The animated button's drawing: text, frame, text and background colours. */
  datatype AnimatedLook = AnimatedLook(text: string, frame: Frame, foreground: Paint, background: Paint)

  /** The plain button's style selection: inverted exactly when focused, and a
      solid border exactly when the option asks for one. */
  function ButtonLook(text: string, focused: bool, option: ButtonOption): (look: Look)
    ensures look.text == text
    ensures look.inverted <==> focused
    ensures look.frame == SolidFrame <==> option.border
    ensures look.frame != BlankFrame
  {
    Look(text, focused, if option.border then SolidFrame else NoFrame)
  }

  /** The animated button's style: always the blank frame, whatever the option's
      border says, and colours taken `progress` of the way from the unfocused
      pair to the focused pair. */
  function AnimatedButtonLook(text: string, progress: real, option: ButtonAnimatedOption): (look: AnimatedLook)
    ensures look.text == text && look.frame == BlankFrame
    ensures look.foreground.t == progress && look.background.t == progress
    ensures look.foreground.from == option.foregroundColor && look.foreground.to == option.foregroundColorFocused
    ensures look.background.from == option.backgroundColor && look.background.to == option.backgroundColorFocused
  {
    AnimatedLook(text, BlankFrame,
                 Blend(progress, option.foregroundColor, option.foregroundColorFocused),
                 Blend(progress, option.backgroundColor, option.backgroundColorFocused))
  }

  // ---------------------------------------------------------------------------
  // The event-handling decision procedure shared by both buttons

  /** The outcomes of a button's event handler. */
  datatype Reaction =
    | Ignore         // not for this button
    | Decline        // hit, but another component holds the mouse
    | Focus          // hit with the mouse granted, but not a left press
    | FocusAndClick  // left press inside the button
    | Click          // Return key
  {
    predicate TakesFocus() { Focus? || FocusAndClick? }
    predicate Fires() { FocusAndClick? || Click? }
    /** The handler's return value for each outcome. */
    predicate Consumed() {
      match this
      case Ignore => false
      case Decline => false
      case Focus => false
      case FocusAndClick => true
      case Click => true
    }
  }

  predicate IsLeftPress(m: Mouse) {
    m.button == Left && m.motion == Pressed
  }

  /** How a button drawn in `box` reacts to `event` when the mouse-capture token
      is free (`captureFree`) or held by another component. */
  function React(event: Event, box: Box, captureFree: bool): (r: Reaction)
    ensures r.Consumed() <==> r.Fires()
    ensures r.TakesFocus() <==> Hits(event, box) && captureFree
    ensures r.Fires() <==>
      event == KeyEvent(Return) || (Hits(event, box) && captureFree && IsLeftPress(event.mouse))
    ensures r == Decline <==> Hits(event, box) && !captureFree
  {
    if Hits(event, box) then
      if !captureFree then Decline
      else if IsLeftPress(event.mouse) then FocusAndClick
      else Focus
    else if event == KeyEvent(Return) then Click
    else Ignore
  }

  /** What a button's event handling observes and changes: the rectangle it was
      last drawn into, whether it holds focus, and how often its callback ran. */
  datatype ButtonState = ButtonState(box: Box, focused: bool, clicks: nat)

  /** One event as delivered by the host, with the state of the capture token. */
  datatype Delivery = Delivery(event: Event, captureFree: bool)

  /** The state after the handler has run on one delivery. */
  function Deliver(s: ButtonState, d: Delivery): ButtonState {
    var r := React(d.event, s.box, d.captureFree);
    ButtonState(s.box, s.focused || r.TakesFocus(), if r.Fires() then s.clicks + 1 else s.clicks)
  }

  /** The state after the handler has run on each delivery in turn. */
  function DeliverAll(s: ButtonState, ds: seq<Delivery>): ButtonState
    decreases |ds|
  {
    if ds == [] then s else DeliverAll(Deliver(s, ds[0]), ds[1..])
  }

  /** How many of the deliveries fire the callback of a button drawn in `box`. */
  function FiringCount(box: Box, ds: seq<Delivery>): nat
    decreases |ds|
  {
    if ds == [] then 0
    else (if React(ds[0].event, box, ds[0].captureFree).Fires() then 1 else 0) + FiringCount(box, ds[1..])
  }

  /** Event handling never moves the button. */
  lemma {:induction false} DeliverAllKeepsBox(s: ButtonState, ds: seq<Delivery>)
    ensures DeliverAll(s, ds).box == s.box
    decreases |ds|
  {
    if ds != [] {
      DeliverAllKeepsBox(Deliver(s, ds[0]), ds[1..]);
    }
  }

  /** The callback runs exactly once per firing delivery. */
  lemma {:induction false} ClicksAfterDeliveries(s: ButtonState, ds: seq<Delivery>)
    ensures DeliverAll(s, ds).clicks == s.clicks + FiringCount(s.box, ds)
    decreases |ds|
  {
    if ds != [] {
      ClicksAfterDeliveries(Deliver(s, ds[0]), ds[1..]);
    }
  }

  /** A button holds focus after a run of deliveries exactly when it held it
      before or one of the deliveries was a granted hit: the handler takes focus
      and never gives it up. */
  lemma {:induction false} FocusAfterDeliveries(s: ButtonState, ds: seq<Delivery>)
    ensures DeliverAll(s, ds).focused <==>
      s.focused || exists i :: 0 <= i < |ds| && React(ds[i].event, s.box, ds[i].captureFree).TakesFocus()
    decreases |ds|
  {
    if ds != [] {
      var s1 := Deliver(s, ds[0]);
      FocusAfterDeliveries(s1, ds[1..]);
      if exists i :: 0 <= i < |ds| && React(ds[i].event, s.box, ds[i].captureFree).TakesFocus() {
        var i :| 0 <= i < |ds| && React(ds[i].event, s.box, ds[i].captureFree).TakesFocus();
        if i > 0 {
          assert ds[1..][i - 1] == ds[i];
        }
      }
      if exists j :: 0 <= j < |ds[1..]| && React(ds[1..][j].event, s1.box, ds[1..][j].captureFree).TakesFocus() {
        var j :| 0 <= j < |ds[1..]| && React(ds[1..][j].event, s1.box, ds[1..][j].captureFree).TakesFocus();
        assert ds[1..][j] == ds[j + 1];
      }
    }
  }

  /** Each Return key fires the callback once and changes nothing else,
      whatever the focus, the box and the capture token. */
  lemma {:induction false} ReturnKeysClickOncePerKey(s: ButtonState, ds: seq<Delivery>)
    requires forall i :: 0 <= i < |ds| ==> ds[i].event == KeyEvent(Return)
    ensures DeliverAll(s, ds) == s.(clicks := s.clicks + |ds|)
    decreases |ds|
  {
    if ds != [] {
      ReturnKeysClickOncePerKey(Deliver(s, ds[0]), ds[1..]);
    }
  }

  /** While another component holds the mouse, mouse events change nothing:
      no focus, no callback. */
  lemma {:induction false} HeldCaptureBlocksMouse(s: ButtonState, ds: seq<Delivery>)
    requires forall i :: 0 <= i < |ds| ==> ds[i].event.IsMouse() && !ds[i].captureFree
    ensures DeliverAll(s, ds) == s
    decreases |ds|
  {
    if ds != [] {
      HeldCaptureBlocksMouse(Deliver(s, ds[0]), ds[1..]);
    }
  }

  // ---------------------------------------------------------------------------
  // The animated button's extra state

  /** The animator driving `progress`. `Idle` is the animator built from the
      progress value alone, whose target is 0; `Transition` is one re-targeted
      from `start` to `target` with the option's duration and easing. */
  datatype Animator =
    | Idle
    | Transition(start: real, target: real, duration: Milliseconds, easing: Easing)
  {
    function To(): real {
      if Idle? then 0.0 else target
    }
  }

  /** The animator target that matches a focus state. */
  function FocusTarget(focused: bool): real {
    if focused then 1.0 else 0.0
  }

  datatype AnimatedState = AnimatedState(button: ButtonState, progress: real, animator: Animator)

  /** Replaces the animator by a fresh one heading for `target` from the current
      progress, with the option's duration and easing. */
  function Retarget(s: AnimatedState, target: real, option: ButtonAnimatedOption): (t: AnimatedState)
    ensures t.button == s.button && t.progress == s.progress
    ensures t.animator.To() == target
    ensures t.animator.Transition? && t.animator.start == s.progress
    ensures t.animator.duration == option.animationDuration && t.animator.easing == option.animationEasing
  {
    s.(animator := Transition(s.progress, target, option.animationDuration, option.animationEasing))
  }

  /** The animator after a render: re-targeted to the focus target only when its
      current target differs. */
  function Rendered(s: AnimatedState, option: ButtonAnimatedOption): (t: AnimatedState)
    ensures t.button == s.button && t.progress == s.progress
    ensures t.animator.To() == FocusTarget(s.button.focused)
    ensures s.animator.To() == FocusTarget(s.button.focused) ==> t == s
    ensures s.animator.To() != FocusTarget(s.button.focused) ==>
      t.animator == Transition(s.progress, FocusTarget(s.button.focused), option.animationDuration, option.animationEasing)
  {
    var target := FocusTarget(s.button.focused);
    if target != s.animator.To() then Retarget(s, target, option) else s
  }

  /** A second render with unchanged focus leaves the animator untouched, and
      so does a first render of an unfocused button whose animator is still the
      idle one: the idle animator already aims at 0, so it is not replaced. The
      guard against re-targeting is what the second clause depends on; the
      first also holds of a render that always re-targets, since the model
      keeps no elapsed time. */
  lemma RenderIsIdempotent(s: AnimatedState, option: ButtonAnimatedOption)
    ensures Rendered(Rendered(s, option), option) == Rendered(s, option)
    ensures !s.button.focused && s.animator == Idle ==> Rendered(s, option) == s
  {
  }

  /** A click: the callback runs once, progress flashes to one half and the
      animator heads for full focus from there. */
  function Clicked(s: AnimatedState, option: ButtonAnimatedOption): (t: AnimatedState)
    ensures t.button == s.button.(clicks := s.button.clicks + 1)
    ensures t.progress == 0.5
    ensures t.animator == Transition(0.5, 1.0, option.animationDuration, option.animationEasing)
  {
    Retarget(s.(button := s.button.(clicks := s.button.clicks + 1), progress := 0.5), 1.0, option)
  }

  /** The animated button's state after its handler has run on one delivery:
      the same decision as the plain button, with `Clicked` as the callback. */
  function AnimatedDeliver(s: AnimatedState, d: Delivery, option: ButtonAnimatedOption): AnimatedState {
    var r := React(d.event, s.button.box, d.captureFree);
    var focused := s.(button := s.button.(focused := s.button.focused || r.TakesFocus()));
    if r.Fires() then Clicked(focused, option) else focused
  }

  function AnimatedDeliverAll(s: AnimatedState, ds: seq<Delivery>, option: ButtonAnimatedOption): AnimatedState
    decreases |ds|
  {
    if ds == [] then s else AnimatedDeliverAll(AnimatedDeliver(s, ds[0], option), ds[1..], option)
  }

  /** The two buttons handle events alike: on any run of deliveries the animated
      button's box, focus and click count follow the plain button's. */
  lemma {:induction false} AnimatedAgreesWithPlain(s: AnimatedState, ds: seq<Delivery>, option: ButtonAnimatedOption)
    ensures AnimatedDeliverAll(s, ds, option).button == DeliverAll(s.button, ds)
    decreases |ds|
  {
    if ds != [] {
      AnimatedAgreesWithPlain(AnimatedDeliver(s, ds[0], option), ds[1..], option);
    }
  }

  /** Event handling touches the animation only through clicks: after a run
      with no firing delivery progress and animator are as before, and after a
      run with one the last click's flash is what remains. */
  lemma {:induction false} AnimationAfterDeliveries(s: AnimatedState, ds: seq<Delivery>, option: ButtonAnimatedOption)
    ensures var t := AnimatedDeliverAll(s, ds, option);
      if FiringCount(s.button.box, ds) == 0 then
        t.progress == s.progress && t.animator == s.animator
      else
        t.progress == 0.5 && t.animator == Transition(0.5, 1.0, option.animationDuration, option.animationEasing)
    decreases |ds|
  {
    if ds != [] {
      var s1 := AnimatedDeliver(s, ds[0], option);
      assert s1.button.box == s.button.box;
      AnimationAfterDeliveries(s1, ds[1..], option);
    }
  }

  // ---------------------------------------------------------------------------
  // The widgets

  class Button {
    const text: string
    const option: ButtonOption
    var box: Box
    var focused: bool
    var clicks: nat

    constructor (text: string, option: ButtonOption)
      ensures this.text == text && this.option == option
      ensures State() == ButtonState(UndrawnBox, false, 0)
    {
      this.text := text;
      this.option := option;
      box := UndrawnBox;
      focused := false;
      clicks := 0;
    }

    function State(): ButtonState
      reads this
    {
      ButtonState(box, focused, clicks)
    }

    predicate Focused()
      reads this
    {
      focused
    }

    function Focusable(): (r: bool)
      ensures r
    {
      true
    }

    /** Asks for focus; a focusable component gets it. */
    method TakeFocus()
      modifies this`focused
      ensures focused <==> old(focused) || Focusable()
    {
      if Focusable() {
        focused := true;
      }
    }

    /** Draws the button; `drawn` is the rectangle the layout gives it, which
        is recorded for later hit tests. */
    method Render(drawn: Box) returns (look: Look)
      modifies this`box
      ensures look == ButtonLook(text, Focused(), option)
      ensures box == drawn
    {
      look := ButtonLook(text, Focused(), option);
      box := drawn;
    }

    method OnEvent(event: Event, capture: MouseCapture) returns (handled: bool)
      modifies this`focused, this`clicks, capture
      ensures handled <==> React(event, box, !old(capture.held)).Consumed()
      ensures handled <==> clicks == old(clicks) + 1
      ensures State() == Deliver(old(State()), Delivery(event, !old(capture.held)))
      ensures capture.held == old(capture.held)
    {
      if event.IsMouse() && box.Contain(event.mouse.x, event.mouse.y) {
        var granted := capture.TryCapture();
        if granted {
          // The grant is a temporary that ends with the condition that asked for it.
          capture.Release();
        }
        if !granted {
          return false;
        }
        TakeFocus();
        if event.mouse.button == Left && event.mouse.motion == Pressed {
          clicks := clicks + 1;
          return true;
        }
        return false;
      }
      if event == KeyEvent(Return) {
        clicks := clicks + 1;
        return true;
      }
      return false;
    }
  }

  class AnimatedButton {
    const text: string
    const option: ButtonAnimatedOption
    var box: Box
    var focused: bool
    var clicks: nat
    var progress: real
    var animator: Animator

    constructor (text: string, option: ButtonAnimatedOption)
      ensures this.text == text && this.option == option
      ensures State() == AnimatedState(ButtonState(UndrawnBox, false, 0), 0.0, Idle)
    {
      this.text := text;
      this.option := option;
      box := UndrawnBox;
      focused := false;
      clicks := 0;
      progress := 0.0;
      animator := Idle;
    }

    function State(): AnimatedState
      reads this
    {
      AnimatedState(ButtonState(box, focused, clicks), progress, animator)
    }

    predicate Focused()
      reads this
    {
      focused
    }

    function Focusable(): (r: bool)
      ensures r
    {
      true
    }

    /** Asks for focus; a focusable component gets it. */
    method TakeFocus()
      modifies this`focused
      ensures focused <==> old(focused) || Focusable()
    {
      if Focusable() {
        focused := true;
      }
    }

    /** Draws the button, first re-targeting the animator if the focus changed
        since it was last aimed; `drawn` is recorded for later hit tests. */
    method Render(drawn: Box) returns (look: AnimatedLook)
      modifies this`animator, this`box
      ensures animator == Rendered(old(State()), option).animator
      ensures look == AnimatedButtonLook(text, progress, option)
      ensures box == drawn
    {
      var target := if Focused() then 1.0 else 0.0;
      if target != animator.To() {
        SetAnimationTarget(target);
      }
      look := AnimatedButtonLook(text, progress, option);
      box := drawn;
    }

    method SetAnimationTarget(target: real)
      modifies this`animator
      ensures State() == Retarget(old(State()), target, option)
    {
      animator := Transition(progress, target, option.animationDuration, option.animationEasing);
    }

    method OnClick()
      modifies this`clicks, this`progress, this`animator
      ensures State() == Clicked(old(State()), option)
    {
      clicks := clicks + 1;
      progress := 0.5;
      SetAnimationTarget(1.0);
    }

    method OnEvent(event: Event, capture: MouseCapture) returns (handled: bool)
      modifies this`focused, this`clicks, this`progress, this`animator, capture
      ensures handled <==> React(event, box, !old(capture.held)).Consumed()
      ensures handled <==> clicks == old(clicks) + 1
      ensures State() == AnimatedDeliver(old(State()), Delivery(event, !old(capture.held)), option)
      ensures capture.held == old(capture.held)
    {
      if event.IsMouse() && box.Contain(event.mouse.x, event.mouse.y) {
        var granted := capture.TryCapture();
        if granted {
          // The grant is a temporary that ends with the condition that asked for it.
          capture.Release();
        }
        if !granted {
          return false;
        }
        TakeFocus();
        if event.mouse.button == Left && event.mouse.motion == Pressed {
          OnClick();
          return true;
        }
        return false;
      }
      if event == KeyEvent(Return) {
        OnClick();
        return true;
      }
      return false;
    }
  }

  /** A bordered "OK" button drawn unfocused, then focused, then sent Return;
      and an animated button clicked with the mouse. */
  method Scenario() {
    var capture := new MouseCapture();
    var ok := new Button("OK", ButtonOption());
    var area := Box(0, 3, 0, 2);
    var look := ok.Render(area);
    assert look == Look("OK", false, SolidFrame);
    ok.TakeFocus();
    look := ok.Render(area);
    assert look.inverted;
    var handled := ok.OnEvent(KeyEvent(Return), capture);
    assert handled && ok.clicks == 1;

    var fancy := new AnimatedButton("OK", ButtonAnimatedOption());
    var fancyLook := fancy.Render(area);
    assert fancy.animator == Idle && fancyLook.frame == BlankFrame;
    handled := fancy.OnEvent(MouseEvent(Mouse(Left, Pressed, 1, 1)), capture);
    assert handled && fancy.focused && fancy.clicks == 1;
    assert fancy.progress == 0.5 && fancy.animator.To() == 1.0;
    fancyLook := fancy.Render(area);
    assert fancy.animator == Transition(0.5, 1.0, 200, QuadraticOut);
  }
}
