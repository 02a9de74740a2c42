/** The option records the widgets are configured with. Every field has a
    default, given here as the default value of the constructor parameter, so
    `ButtonOption()` is the record a widget gets when its caller passes none. */
module ComponentOptions {

  datatype Option<T> = None | Some(value: T)

  /** A callback field. `Unset` is an empty callable, which may not be invoked;
      `NoOp` is a callable that does nothing; `Action` is any other callable. */
  datatype Callback = Unset | NoOp | Action(name: string)
  {
    predicate Callable() { !Unset? }
  }

  /** The text attributes a decorator switches on. */
  datatype Attribute = InvertedText | BoldText

  /** A style decorator: `nothing`, `inverted`, `bold`, or two composed with `|`. */
  datatype Decorator = Nothing | Inverted | Bold | Compose(first: Decorator, second: Decorator)

  /** The attributes an element has after `d` is applied to it. */
  function Effects(d: Decorator): set<Attribute> {
    match d
    case Nothing => {}
    case Inverted => {InvertedText}
    case Bold => {BoldText}
    case Compose(a, b) => Effects(a) + Effects(b)
  }

  /** The four styles of a widget with entries that can be focused and selected
      are consistent when the selected+focused style applies exactly the union of
      the focused style and the selected style, and the normal style applies none. */
  predicate StylesConsistent(normal: Decorator, focused: Decorator, selected: Decorator, selectedFocused: Decorator) {
    Effects(normal) == {} &&
    Effects(selectedFocused) == Effects(focused) + Effects(selected)
  }

  datatype Color = Black | GrayDark | GrayLight | White | OtherColor(index: nat)

  datatype Easing =
    | Linear
    | QuadraticIn
    | QuadraticOut
    | QuadraticInOut
    | CubicIn
    | CubicOut
    | CubicInOut

  datatype BorderStyle = Light | Heavy | Double | Rounded | EmptyBorder

  /** A duration in milliseconds. */
  type Milliseconds = nat

  datatype MenuOption = MenuOption(
    styleNormal: Decorator := Nothing,
    styleFocused: Decorator := Inverted,
    styleSelected: Decorator := Bold,
    styleSelectedFocused: Decorator := Compose(Inverted, Bold),
    onChange: Callback := NoOp,
    onEnter: Callback := NoOp,
    focusedEntry: int := 0)
  {
    predicate Valid() { onChange.Callable() && onEnter.Callable() }
  }

  datatype MenuEntryOption = MenuEntryOption(
    styleNormal: Decorator := Nothing,
    styleFocused: Decorator := Inverted,
    styleSelected: Decorator := Bold,
    styleSelectedFocused: Decorator := Compose(Inverted, Bold))

  datatype ButtonOption = ButtonOption(border: bool := true)

  datatype ButtonAnimatedOption = ButtonAnimatedOption(
    border: Option<BorderStyle> := Some(Light),
    foregroundColorFocused: Color := White,
    foregroundColor: Color := GrayLight,
    backgroundColorFocused: Color := GrayDark,
    backgroundColor: Color := Black,
    animationEasing: Easing := QuadraticOut,
    animationDuration: Milliseconds := 200)

  datatype CheckboxOption = CheckboxOption(
    styleChecked: string := "\U{25A3} ",
    styleUnchecked: string := "\U{2610} ",
    styleNormal: Decorator := Nothing,
    styleFocused: Decorator := Inverted,
    styleSelected: Decorator := Bold,
    styleSelectedFocused: Decorator := Compose(Inverted, Bold),
    onChange: Callback := NoOp)
  {
    predicate Valid() { onChange.Callable() }
  }

  datatype InputOption = InputOption(
    onChange: Callback := NoOp,
    onEnter: Callback := NoOp,
    password: bool := false,
    cursorPosition: int := -1)
  {
    predicate Valid() { onChange.Callable() && onEnter.Callable() }

    /** -1 is the sentinel for "do not store the cursor position". */
    predicate StoresCursorPosition() { cursorPosition != -1 }
  }

  datatype RadioboxOption = RadioboxOption(
    styleChecked: string := "\U{25C9} ",
    styleUnchecked: string := "\U{25CB} ",
    styleNormal: Decorator := Nothing,
    styleFocused: Decorator := Inverted,
    styleSelected: Decorator := Bold,
    styleSelectedFocused: Decorator := Compose(Inverted, Bold),
    onChange: Callback := NoOp,
    focusedEntry: int := 0)
  {
    predicate Valid() { onChange.Callable() }
  }

  datatype ToggleOption = ToggleOption(
    styleNormal: Decorator := Nothing,
    styleFocused: Decorator := Inverted,
    styleSelected: Decorator := Bold,
    styleSelectedFocused: Decorator := Compose(Inverted, Bold),
    onChange: Callback := NoOp,
    onEnter: Callback := NoOp,
    focusedEntry: int := 0)
  {
    predicate Valid() { onChange.Callable() && onEnter.Callable() }
  }

  /** A menu starts on its first entry, its default callbacks do nothing, and
      its selected+focused style is inverted and bold together. */
  lemma DefaultMenuOption()
    ensures MenuOption().focusedEntry == 0
    ensures MenuOption().Valid() && MenuOption().onChange == NoOp && MenuOption().onEnter == NoOp
    ensures Effects(MenuOption().styleSelectedFocused) == {InvertedText, BoldText}
    ensures StylesConsistent(MenuOption().styleNormal, MenuOption().styleFocused,
                             MenuOption().styleSelected, MenuOption().styleSelectedFocused)
  {
  }

  lemma DefaultMenuEntryOption()
    ensures Effects(MenuEntryOption().styleSelectedFocused) == {InvertedText, BoldText}
    ensures StylesConsistent(MenuEntryOption().styleNormal, MenuEntryOption().styleFocused,
                             MenuEntryOption().styleSelected, MenuEntryOption().styleSelectedFocused)
  {
  }

  /** A button draws a border unless told otherwise. */
  lemma DefaultButtonOption()
    ensures ButtonOption().border
  {
  }

  /** The animated button fades from light grey on black to white on dark grey,
      over 200 ms with a quadratic ease-out; both colours change on focus. */
  lemma DefaultButtonAnimatedOption()
    ensures ButtonAnimatedOption().border == Some(Light)
    ensures ButtonAnimatedOption().animationDuration == 200
    ensures ButtonAnimatedOption().animationEasing == QuadraticOut
    ensures ButtonAnimatedOption().foregroundColor == GrayLight
    ensures ButtonAnimatedOption().backgroundColor == Black
    ensures ButtonAnimatedOption().foregroundColorFocused == White
    ensures ButtonAnimatedOption().backgroundColorFocused == GrayDark
    ensures ButtonAnimatedOption().foregroundColor != ButtonAnimatedOption().foregroundColorFocused
    ensures ButtonAnimatedOption().backgroundColor != ButtonAnimatedOption().backgroundColorFocused
  {
  }

  lemma DefaultCheckboxOption()
    ensures CheckboxOption().Valid() && CheckboxOption().onChange == NoOp
    ensures CheckboxOption().styleChecked != CheckboxOption().styleUnchecked
    ensures Effects(CheckboxOption().styleSelectedFocused) == {InvertedText, BoldText}
    ensures StylesConsistent(CheckboxOption().styleNormal, CheckboxOption().styleFocused,
                             CheckboxOption().styleSelected, CheckboxOption().styleSelectedFocused)
  {
  }

  /** An input does not mask its content, does not store its cursor position,
      and its default callbacks do nothing. */
  lemma DefaultInputOption()
    ensures InputOption().Valid() && InputOption().onChange == NoOp && InputOption().onEnter == NoOp
    ensures !InputOption().password
    ensures !InputOption().StoresCursorPosition()
  {
  }

  lemma DefaultRadioboxOption()
    ensures RadioboxOption().focusedEntry == 0
    ensures RadioboxOption().Valid() && RadioboxOption().onChange == NoOp
    ensures RadioboxOption().styleChecked != RadioboxOption().styleUnchecked
    ensures Effects(RadioboxOption().styleSelectedFocused) == {InvertedText, BoldText}
    ensures StylesConsistent(RadioboxOption().styleNormal, RadioboxOption().styleFocused,
                             RadioboxOption().styleSelected, RadioboxOption().styleSelectedFocused)
  {
  }

  lemma DefaultToggleOption()
    ensures ToggleOption().focusedEntry == 0
    ensures ToggleOption().Valid() && ToggleOption().onChange == NoOp && ToggleOption().onEnter == NoOp
    ensures Effects(ToggleOption().styleSelectedFocused) == {InvertedText, BoldText}
    ensures StylesConsistent(ToggleOption().styleNormal, ToggleOption().styleFocused,
                             ToggleOption().styleSelected, ToggleOption().styleSelectedFocused)
  {
  }
}
