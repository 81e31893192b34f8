# Status badge model

A Dafny model of the status decorator's `Status` component
(`src/components/Status.tsx`): a corner ribbon that shows a label in the colour
of one of four severities and, when the caller supplies detail information,
an info box that the user opens and closes by clicking.

The model has three modules:

- `StatusTypes` (`status_types.dfy`): the severities `Info | Warning | Danger | Fine`,
  the detail information (`shortInfo`, optional `fullInfo`), the colour table
  `ColorMap`, the `info` default and JavaScript truthiness of an optional string.
- `StatusView` (`status_view.dfy`): the props and an abstract view of what is
  rendered: the root (fill colour, pointer cursor, class name, forwarded
  attributes, click handler, label and hint) and the optional info box
  (heading, handler of its "X" control, fill, class, whether it is displayed,
  its own click handler, short text, optional full text). `StatusContent`,
  `StatusInfoBox`, the root's style callback and `render` are pure functions
  onto that view.
- `StatusComponent` (`status_component.dfy`): the class `MStatus` with its props
  (a constant field) and its one mutable field `detailsVisible`, its constructor, `toggleDetailsVisibility`,
  `closeDetails`, a method that runs a rendered node's click handler, and
  `render`; the functions `Step` and `Replay` give what one handler and a
  sequence of handlers do to the flag, and the lemmas about them prove toggle
  parity, close idempotence and the flag's value after any click sequence.
  Two client methods, `ServerDownScenario` and `AllGoodScenario`, go through a
  badge with and without detail information using only the contracts of the class and
  of the render functions.

The model follows the code in three places where a description of the
widget might suggest otherwise:

- The root's click handler toggles the flag unconditionally, also when there is
  no detail information (`Status.tsx:61`). The flag then flips with no box to
  show, and the root still carries the handler. It merely has no pointer cursor.
- The `onClick` given to the info box (`Status.tsx:72`) is not destructured
  by `StatusInfoBox`, so it lands on the box's own `div` (`Status.tsx:143-145`).
  A click anywhere on the box closes it. The `closeDetails` prop that the "X"
  control uses (`Status.tsx:142,148`) is never supplied, so the model gives
  that control no handler.
- There is no error path: an unknown severity or detail information without a
  short text cannot be expressed in the source's types, and the code checks
  neither. The model's types exclude them the same way.

`setState` is modelled as an immediate assignment. Colours are the table's
strings. `label` is a reserved word in Dafny, so the props field is `labelText`.

## Model

| member | source | states |
|---|---|---|
| `StatusTypes.ColorMap` | src/components/Status.tsx:5-12 | the colour table is total over the four severities and every entry is a `#` followed by six hex digits |
| `StatusTypes.ColorMapInjective` | src/components/Status.tsx:5-10 | two severities have the same colour exactly when they are the same severity |
| `StatusTypes.EffectiveStatusType` | src/components/Status.tsx:50 | a given severity is used as is; an omitted one becomes `Info` |
| `StatusView.StatusContent` | src/components/Status.tsx:102-108 | the content shows the label, and shows the "(Click for more Info)" hint exactly when told there is detail information |
| `StatusView.StatusInfoBox` | src/components/Status.tsx:137-203 | the box has the label as heading and the short text; it has the full text exactly when that is present and non-empty; its fill is the severity's colour; it is displayed exactly when its class is `isVisible`; the `onClick` it is given becomes the box's own handler and `closeDetails` the "X" control's |
| `StatusView.RootStyle` | src/components/Status.tsx:80-93 | the root's fill is the colour of the effective severity, and it has a pointer cursor exactly when there is detail information |
| `StatusView.RenderStatus` | src/components/Status.tsx:47-77 | the root always carries the toggle handler, the label and the forwarded attributes; the root's content is `StatusContent` of the label and the presence of detail information, so the hint reads "(Click for more Info)"; the info box exists, the hint shows and the cursor is a pointer exactly when there is detail information; a box is displayed exactly when `detailsVisible` holds, has the root's colour, the label, the short text, the full text exactly when it is truthy, the close handler on the box and none on its "X" control |
| `StatusView.StateOnlyAffectsVisibility` | src/components/Status.tsx:55-74 | two renders of the same props in different states differ only in the box's class and whether it is displayed |
| `StatusComponent.Step` | src/components/Status.tsx:37-45 | after a handler runs the flag is set exactly when the handler was a toggle from hidden |
| `StatusComponent.ToggleInvolutive` | src/components/Status.tsx:37-41 | two toggles restore the flag |
| `StatusComponent.CloseIdempotent` | src/components/Status.tsx:43-45 | closing hides the details from either state, and closing again changes nothing |
| `StatusComponent.ReplayAppend` | src/components/Status.tsx:37-45 | running two click sequences one after the other is running their concatenation |
| `StatusComponent.ToggleParity` | src/components/Status.tsx:37-41 | with root clicks only, every click is a toggle and the flag is the initial one flipped by the parity of the number of toggles |
| `StatusComponent.ReplayCharacterised` | src/components/Status.tsx:37-45 | after any click sequence the flag is the parity of the toggles after the last close, starting from hidden when there was a close and from the initial flag otherwise |
| `StatusComponent.NoInfoNeverPanel` | src/components/Status.tsx:61-74 | without detail information no click sequence yields an info box, and each further root click still flips the flag |
| `StatusComponent.RenderedHandlers` | src/components/Status.tsx:59-73 | the root's handler negates the flag and the box's handler clears it |
| `StatusComponent.MStatus.constructor` | src/components/Status.tsx:28-35 | a new badge keeps its props and starts with its details hidden |
| `StatusComponent.MStatus.ToggleDetailsVisibility` | src/components/Status.tsx:37-41 | the flag becomes its negation |
| `StatusComponent.MStatus.CloseDetails` | src/components/Status.tsx:43-45 | the flag becomes false |
| `StatusComponent.MStatus.Fire` | src/components/Status.tsx:61-72 | running a node's handler changes the flag as `Step` says |
| `StatusComponent.MStatus.Render` | src/components/Status.tsx:47-77 | the view of the current props and flag, its box displayed exactly when the flag is set |

## Left out

- CSS values other than the fill colours, the pointer cursor and the `isVisible` display rule (position, rotation, sizes, fonts, shadows, z-index): presentation only.
- Emotion's `styled` wrapper: how it merges its generated class with the caller's `className` is library behaviour. The root keeps the caller's `className` as an opaque value.
- `htmlAttributes` is an opaque bag forwarded to the root unchanged. Because it is spread after `onClick` (`Status.tsx:61-62`), an `onClick` inside it would replace the toggle handler. The model does not capture that override, since the bag is never inspected.
- React's lifecycle: `setState` batching, reconciliation, the fragment and `bind`. `setState` is an immediate assignment here.
- DOM event dispatch and bubbling: a click inside the box is modelled as running the box's own handler. The "X" control's click reaches that handler only by bubbling.
- Re-rendering one `MStatus` instance with new props: React keeps `detailsVisible` when the parent passes new props, so a badge whose flag was flipped while it had no detail information shows its box already open once `additionalInfo` arrives. The class fixes its props at construction and cannot express this; `RenderStatus` covers every pair of props and flag, including that one.
- Error reporting for unknown severities or missing short text: the source has none, and its types exclude such inputs.
