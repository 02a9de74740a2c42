# FTXUI buttons: event handling, focus and animation targets

This project models the two button widgets of FTXUI, a terminal UI toolkit:

- **Button**: it draws its label, inverted when focused and with a border when its option asks for one.
- **ButtonAnimated**: it draws its label with colours that fade between an unfocused pair and a focused pair.

It also models the option records that configure these and the other widgets, each with its default values.

Both buttons handle events with the same decision procedure:
- A mouse event inside the rectangle where the button was last drawn first asks for the exclusive mouse-capture token.
  - If another component holds the token, the button declines the event.
  - Otherwise the button takes focus. A left press then fires the click callback and is consumed. Any other mouse action is not consumed.
- A Return key fires the callback and is consumed, whatever the focus and the rectangle.
- Every other event is ignored and changes nothing.

The model splits into three parts:
- **Decision procedure.** `Buttons.React` is the pure decision procedure. `Buttons.Deliver` gives its effect on a button's state (rectangle, focus flag, click count). `Buttons.DeliverAll` applies it to a run of events the host delivers one after the other.
- **Widget classes.** `Buttons.Button` and `Buttons.AnimatedButton` are classes whose fields the handlers update in place. Each `OnEvent` is proved to do exactly what `Deliver` or `AnimatedDeliver` says. The lemmas about runs of events are proved once on the pure side.
- **Animated extras.** The animated button's render re-targets its animator only when the focus-derived target (1 or 0) differs from the current target (`Buttons.Rendered`). A click sets progress to exactly 0.5 and aims a fresh animator at 1 (`Buttons.Clicked`).

The option records are in `ComponentOptions`. The default values of the constructor parameters are the source's default member initialisers, so `ButtonOption()` is the default-constructed record.

The collaborators the buttons call are modelled in `ComponentBase` only as far as the buttons use them:
- Events carry a key or a mouse action.
- `Box` is a rectangle with an inclusive containment test.
- `MouseCapture` is the process-wide capture token.
- Focus is a boolean flag on each widget.

Two points of the source shape the model:
- The Return branch (src/ftxui/component/button.cpp:75-78, 174-177) does not check focus or the box.
- `CaptureMouse(event)` at src/ftxui/component/button.cpp:61 and 160 returns a handle that is a temporary of the `if` condition. The handle is destroyed when the condition ends, so the grant ends at once. `OnEvent` is modelled as acquiring the token and releasing it straight away, so the token is as it was when the handler returns. Only the grant-or-deny answer matters.

## Model

| member | source | states |
|---|---|---|
| `ComponentBase.MouseCapture.TryCapture` | src/ftxui/component/button.cpp:61 | the capture request is granted exactly when no one holds the token, and the token is held afterwards |
| `ComponentBase.MouseCapture.Release` | src/ftxui/component/button.cpp:61 | the end of a grant frees the token |
| `ComponentOptions.DefaultMenuOption` | include/ftxui/component/component_options.hpp:12-25 | focused entry 0; callbacks are callable no-ops; the selected+focused style is exactly inverted and bold together, the union of the focused and selected styles; the normal style applies nothing |
| `ComponentOptions.DefaultMenuEntryOption` | include/ftxui/component/component_options.hpp:29-35 | the selected+focused style is exactly the union of the focused (inverted) and selected (bold) styles |
| `ComponentOptions.DefaultButtonOption` | include/ftxui/component/component_options.hpp:39-42 | a button has a border by default |
| `ComponentOptions.DefaultButtonAnimatedOption` | include/ftxui/component/component_options.hpp:46-55 | light border; 200 ms, QuadraticOut easing; GrayLight on Black unfocused, White on GrayDark focused; both colours differ between the two states |
| `ComponentOptions.DefaultCheckboxOption` | include/ftxui/component/component_options.hpp:59-70 | the on-change callback is a callable no-op; checked and unchecked prefixes differ; selected+focused style = focused ∪ selected = inverted and bold |
| `ComponentOptions.DefaultInputOption` | include/ftxui/component/component_options.hpp:74-86 | callbacks are callable no-ops; no password masking; cursor position -1, i.e. the cursor position is not stored |
| `ComponentOptions.DefaultRadioboxOption` | include/ftxui/component/component_options.hpp:90-103 | focused entry 0; callable no-op callback; distinct prefixes; selected+focused style = focused ∪ selected |
| `ComponentOptions.DefaultToggleOption` | include/ftxui/component/component_options.hpp:107-120 | focused entry 0; callable no-op callbacks; selected+focused style = focused ∪ selected |
| `Buttons.ButtonLook` | src/ftxui/component/button.cpp:53-57 | the plain button is inverted iff focused and has a solid border iff `option.border`; it never uses the blank border; the label is drawn as given |
| `Buttons.AnimatedButtonLook` | src/ftxui/component/button.cpp:133-139 | the animated button always has the blank border, whatever its option says; both colours are taken at the current progress between the option's unfocused and focused colours |
| `Buttons.React` | src/ftxui/component/button.cpp:59-80 | (also lines 158-179) an event is consumed iff it fires the callback; focus is taken iff the event is a mouse event inside the box and capture is free; the callback fires iff the event is Return, or a granted left press inside the box; the handler declines iff the event is a mouse hit while capture is held |
| `Buttons.DeliverAllKeepsBox` | src/ftxui/component/button.cpp:59-80 | handling any run of events leaves the recorded box unchanged |
| `Buttons.ClicksAfterDeliveries` | src/ftxui/component/button.cpp:59-80 | over any run of events the callback fires exactly once per firing event |
| `Buttons.FocusAfterDeliveries` | src/ftxui/component/button.cpp:60-64 | after any run of events the button is focused iff it was before or some event was a mouse hit with capture granted (both directions) |
| `Buttons.ReturnKeysClickOncePerKey` | src/ftxui/component/button.cpp:75-78 | n Return keys fire the callback n times and change nothing else, whatever the focus, box or capture |
| `Buttons.HeldCaptureBlocksMouse` | src/ftxui/component/button.cpp:60-62 | while another component holds the mouse, mouse events change no state: no focus, no callback |
| `Buttons.Retarget` | src/ftxui/component/button.cpp:142-146 | the new animator heads for the given target from the current progress with the option's duration and easing; nothing else changes |
| `Buttons.Rendered` | src/ftxui/component/button.cpp:128-131 | after a render the animator's target is 1 when focused and 0 otherwise; an animator already aimed there is left untouched; otherwise a fresh one starts from the current progress; focus, clicks and progress do not change |
| `Buttons.RenderIsIdempotent` | src/ftxui/component/button.cpp:129-131 | a second render with unchanged focus leaves the state as the first left it; a first render of an unfocused button with the idle animator leaves it untouched (the idle target is already 0) |
| `Buttons.Clicked` | src/ftxui/component/button.cpp:152-156 | a click fires the callback once, sets progress to exactly 0.5 and aims a fresh animator from 0.5 to 1.0 with the option's duration and easing |
| `Buttons.AnimatedAgreesWithPlain` | src/ftxui/component/button.cpp:158-179 | on any run of events the animated button's box, focus and click count are exactly the plain button's |
| `Buttons.AnimationAfterDeliveries` | src/ftxui/component/button.cpp:152-179 | with no firing event in a run, progress and animator are unchanged; with at least one, progress is 0.5 and the animator heads for 1.0 |
| `Buttons.Button.constructor` | src/ftxui/component/button.cpp:47-50 | a new button keeps its label and option; it starts undrawn (an all-zero box), unfocused and with no clicks |
| `Buttons.Button.Focusable` | src/ftxui/component/button.cpp:82 | a button is always focusable |
| `Buttons.Button.TakeFocus` | src/ftxui/component/button.cpp:64 | a focusable button that asks for focus holds it afterwards |
| `Buttons.Button.Render` | src/ftxui/component/button.cpp:53-57 | the drawing is `ButtonLook` of the label, the current focus and the option; the drawn rectangle is recorded for hit tests |
| `Buttons.Button.OnEvent` | src/ftxui/component/button.cpp:59-80 | returns whether `React` consumes the event, which holds exactly when the callback ran once; the new state is `Deliver` of the old one; the capture token is left as found |
| `Buttons.AnimatedButton.constructor` | src/ftxui/component/button.cpp:188-189 | progress starts at 0 and the animator at the idle one, whose target is 0; unfocused, undrawn, no clicks |
| `Buttons.AnimatedButton.Focusable` | src/ftxui/component/button.cpp:181 | an animated button is always focusable |
| `Buttons.AnimatedButton.TakeFocus` | src/ftxui/component/button.cpp:163 | a focusable button that asks for focus holds it afterwards |
| `Buttons.AnimatedButton.Render` | src/ftxui/component/button.cpp:128-140 | the animator becomes `Rendered`'s; the drawing is `AnimatedButtonLook` at the current progress; the drawn rectangle is recorded |
| `Buttons.AnimatedButton.SetAnimationTarget` | src/ftxui/component/button.cpp:142-146 | the state becomes `Retarget` of the old state |
| `Buttons.AnimatedButton.OnClick` | src/ftxui/component/button.cpp:152-156 | the state becomes `Clicked` of the old state |
| `Buttons.AnimatedButton.OnEvent` | src/ftxui/component/button.cpp:158-179 | returns whether `React` consumes the event, which holds exactly when the callback ran once; the new state is `AnimatedDeliver` of the old one; the capture token is left as found |

## Left out

- Drawing. The DOM library (`text`, `border`, `borderEmpty`, `inverted`, `color`, `bgcolor`, `reflect`) is not part of this model. A render returns a small record instead: label, inverted or not, frame kind, and the colour pairs with their interpolation parameter. The rectangle that `reflect` records during layout is passed to `Render` as a parameter.
- `Color::Interpolate` and floating point. Progress and targets are reals, which is exact for the only constants the buttons write (0, 0.5 and 1). The colour mixing itself is left symbolic as a `Blend`.
- `OnAnimation` (src/ftxui/component/button.cpp:148-150), the animator's time stepping and the easing curves. These only delegate to the animation library, which is not part of this model. So nothing in the model moves progress except a click.
- The animator built from the progress value alone. It is modelled as `Idle`, with target 0: the default target of the animation library's constructor, which is not part of this model.
- The component tree. `TakeFocus`/`Focused` across a tree, and focus taken away by another component, are not modelled. Focus is a flag on each widget. Both constructors start the button unfocused, although in the library `Focused()` depends on the component's place in the tree. No member clears the flag: losing focus to another component is modelled only as the host assigning the public field.
- How `CaptureMouse` is implemented. It is modelled as a token that is free or held. Which component holds it is not tracked.
- The box's default value. Box is not part of this model. The undrawn box is taken as all zeros, so an undrawn button's box contains the cell (0, 0).
- Event encoding. Events are a key or a mouse action (button, press/release, position). Other kinds of event, and modifier keys on mouse events, are not modelled.
- `std::function` callbacks. The button's `on_click_` becomes a click counter, so the button's own callback is assumed callable: the `std::bad_function_call` that invoking an empty one throws (src/ftxui/component/button.cpp:68, 76, 153) is not modelled. Option callbacks are `Unset` (an empty callable), `NoOp` or an opaque named action.
- `Ref`/`ConstStringRef` indirection. Labels and options are plain values fixed at construction, so a caller changing a referenced option or label after construction is not modelled.
- The Menu, MenuEntry, Checkbox, Input, Radiobox and Toggle widgets. Their code is not part of this model, so only their option records and defaults are.
- Decorator order. `Effects` gives a decorator's set of text attributes, which is all the defaults depend on. The order in which a composed decorator applies its parts is not modelled.
- The event loop, terminal I/O and `ScreenInteractive`.
