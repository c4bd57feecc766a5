# TagView: a verified model of a tag button

`TagView` is a button that shows a tag (a "chip"): a title on a coloured,
optionally rounded and bordered background, with an optional remove button at
its trailing edge. This project models its state and its geometry in Dafny:

- **Style resolution.** `reloadStyles` turns the colour configuration and the
  two interaction flags (`highlighted`, `selected`) into the colours on screen.
  Highlighted wins over selected, and selected wins over the plain look. A
  highlighted tag without a highlighted colour keeps the background it had.
- **Property observers.** Assigning each property runs its observer (`didSet`):
  a restyle, an inset update, a change to the remove button, or a layer
  attribute.
- **Geometry.** The model covers the right title inset, the preferred
  (intrinsic) size and the frame of the remove button after a layout pass.

Modules, one per concern:

- `Wrappers` (wrappers.dfy): `Option`, for the source's optionals.
- `TagStyle` (tag_style.dfy): colours, the `Palette` of seven colour
  properties, the `Shown` colours, and `Restyled`, which is reloadStyles as a
  function.
- `TagGeometry` (tag_geometry.dfy): sizes, rectangles, insets, fonts and
  images. It holds the formulas for `RemoveButtonSize`, `RightInset`,
  `IntrinsicSize` and `LaidOutRemoveFrame`.
- `TagModel` (tag_model.dfy): the whole tag as a value (`ViewState`). An
  `Event` is one property assignment or one layout pass. `Step` gives the state
  after one event and `Run` the state after a sequence. `Holds`/`Establishes`
  say which displayed state each observer derives. The lemmas show that any
  later assignment keeps that derived state once it is established.
- `TagViews` (tag_view.dfy): `class TagView`. Its fields are the tag's
  properties, what the platform displays, and the nested remove button. Every
  setter method is proved to leave `State() == Step(old(State()), event)`.

No observer runs for a property's declared initial value or during
initialisation. So a fresh tag's derived state is not yet consistent with its
properties: the insets are zero, not the paddings of 14 and 20, and the
disabled remove button is not hidden. `TagModel.FreshTagNotDerived` states
this. The consistency results are therefore stated "after setter X" and "for
any run containing X", not as a class invariant.

Construction from a layout description might be expected to leave the size
to the host's layout. It does not: `init(coder:)` calls `setupView` too
(TagListView/TagView.swift:150-154), so `TagView.FromLayout` also gives the
frame the preferred size.

## Model

| member | source | states |
|---|---|---|
| `TagStyle.HighlightedBranch` | TagListView/TagView.swift:91-97 | A highlighted tag keeps its border and title colours, whatever `selected` is. The background becomes the highlighted colour if one is set, and otherwise stays exactly as it was. |
| `TagStyle.SelectedBranch` | TagListView/TagView.swift:98-102 | Selected and not highlighted: background is the selected background, or the tag background. Border is the selected border, or the base border, and is unset exactly when both are unset. Title colour is the selected text colour. |
| `TagStyle.NormalBranch` | TagListView/TagView.swift:103-107 | Neither flag set: tag background, base border colour and text colour. |
| `TagStyle.RestyledIdempotent` | TagListView/TagView.swift:90-108 | Running reloadStyles twice with the same configuration gives what running it once gives. |
| `TagStyle.RestyledHistory` | TagListView/TagView.swift:91-107 | The previous screen matters only when highlighted. Outside that branch the result does not depend on it. With a highlighted colour set, the background does not depend on it. Without one, nothing changes. |
| `TagStyle.SelectedFallsBackToGray` | TagListView/TagView.swift:60-101 | With the declared colours, a selected tag with no selected background gets the gray tag background. |
| `TagStyle.HighlightedKeepsBlue` | TagListView/TagView.swift:91-97 | A highlighted tag with no highlighted colour that showed blue still shows blue. |
| `TagGeometry.RightInsetCases` | TagListView/TagView.swift:171-178 | Right inset is `paddingX` when the remove button is disabled, and `paddingX/2 + removeButtonSize + paddingX` when it is enabled. |
| `TagGeometry.RemoveButtonSizeCases` | TagListView/TagView.swift:125-127 | The remove button size is its normal-state image's width, or 10 without an image. |
| `TagGeometry.IntrinsicSizeShape` | TagListView/TagView.swift:180-188 | Height is `pointSize + 2*paddingY` whatever the title and the remove button. Disabled width is `textWidth + 2*paddingX`. Enabling adds exactly `removeButtonSize + paddingX/2`. |
| `TagGeometry.IntrinsicWidthMonotone` | TagListView/TagView.swift:181-187 | A wider measured title never gives a narrower preferred size. |
| `TagGeometry.IntrinsicSizeFitsTitle` | TagListView/TagView.swift:171-188 | The preferred width minus the left and right insets is exactly the measured text. The height minus both vertical paddings is the point size. This holds with the remove button on or off. |
| `TagGeometry.LaidOutRemoveFrameTrailing` | TagListView/TagView.swift:190-198 | The laid-out remove frame is as wide as the enabled right inset and ends at the frame's trailing edge (`x + width == frame.width`). It has `y == 0` and the frame's full height, and does not depend on the button's earlier frame. |
| `TagGeometry.ExampleTagGeometry` | TagListView/TagView.swift:171-188 | Padding 20x14, a 12-point font and a 10-point image give height 40 and width text + 40. With the button enabled, the right inset is 40 and the width is 20 more. |
| `TagModel.StepKeeps` | TagListView/TagView.swift:19-141 | Each observer establishes the derived state it computes, and every other assignment or layout pass keeps it. The derived states are colours, vertical/left/right insets, clipping, border width, label font, remove-button visibility and image. |
| `TagModel.RunKeeps` | TagListView/TagView.swift:19-141 | Once some event in a run has established a piece of derived state, it still holds at the end of the run, whatever is assigned in between. |
| `TagModel.StyleStepKeepsGeometry` | TagListView/TagView.swift:31-120 | A colour or flag assignment changes only the colour configuration, the flags and the colours on screen. |
| `TagModel.OtherStepKeepsColors` | TagListView/TagView.swift:19-198 | Any other assignment, or a layout pass, leaves the colour configuration, the flags and the colours on screen alone. |
| `TagModel.HighlightedStep` | TagListView/TagView.swift:91-120 | One event on a highlighted tag, other than clearing the flag, keeps it highlighted and keeps its border and title colours. Its background can become only a highlighted colour. |
| `TagModel.RunOfStyleEventsKeepsGeometry` | TagListView/TagView.swift:31-120 | A whole run of colour and flag assignments changes nothing but colours and flags. Insets, frames, remove button and preferred-size inputs stay as they were. |
| `TagModel.RunOfOtherEventsKeepsColors` | TagListView/TagView.swift:19-198 | A whole run without colour or flag assignments keeps the colours on screen. |
| `TagModel.RunWhileHighlighted` | TagListView/TagView.swift:91-120 | While a tag stays highlighted, no event changes its border or title colour. Its background is the one it had, the starting highlighted colour, or one assigned during the run. |
| `TagModel.FreshTagNotDerived` | TagListView/TagView.swift:19-134 | With the declared initial values (no observer run), colours are not restyled, insets are not the paddings, and the disabled remove button is visible. Clipping and border width agree only because both are 0. |
| `TagModel.SetUpSizesFrame` | TagListView/TagView.swift:163-167 | setupView gives the frame the preferred size, keeps its origin, attaches the remove button, and changes nothing else. |
| `TagModel.NarrowSetters` | TagListView/TagView.swift:19-134 | `paddingY` moves only itself and the top/bottom insets. `cornerRadius` clips iff it is positive. `enableRemoveButton` hides the button iff it is disabled. `textFont` changes only the font: no restyle, no inset update. |
| `TagModel.PaddingXSetsBothInsets` | TagListView/TagView.swift:53-57 | Assigning paddingX sets the left inset to it. The right inset becomes the padding, or padding + remove strip when the button is enabled. |
| `TagModel.EnablingRemoveButtonWidens` | TagListView/TagView.swift:129-134 | The enabled tag's preferred width is the disabled one's plus exactly `removeButtonSize + paddingX/2`. Both heights are `pointSize + 2*paddingY`. |
| `TagModel.PreferredSizeFitsTitle` | TagListView/TagView.swift:171-188 | With derived insets, the preferred size holds exactly the measured title between the left and right insets, and the point size between top and bottom. |
| `TagModel.LayoutPlacesRemoveButton` | TagListView/TagView.swift:190-198 | With the button enabled, layout puts it over the trailing strip, as wide as the current right inset and at full height. With it disabled, the state is unchanged. Only the remove frame changes. |
| `TagViews.TagView.constructor` | TagListView/TagView.swift:156-161 | `init(title:)`: declared initial values, a zero frame, the title, then setupView. |
| `TagViews.TagView.FromLayout` | TagListView/TagView.swift:150-154 | `init(coder:)`: declared initial values with the decoded title and frame, then setupView. |
| `TagViews.TagView.SetupView` | TagListView/TagView.swift:163-167 | New state is `SetUp(old state)`. The frame's size equals the preferred size. |
| `TagViews.TagView.ReloadStyles` | TagListView/TagView.swift:90-108 | Only the colours on screen change, to `Restyled` of the old ones. Afterwards they are current. |
| `TagViews.TagView.UpdateRightInsets` | TagListView/TagView.swift:171-178 | Only the right inset changes, to `RightInset`. |
| `TagViews.TagView.SetCornerRadius` | TagListView/TagView.swift:19-24 | New state is `Step(old, AssignCornerRadius)`. `masksToBounds == (r > 0)`. |
| `TagViews.TagView.SetBorderWidth` | TagListView/TagView.swift:25-29 | New state is `Step(old, AssignBorderWidth)`: the layer's border width follows. |
| `TagViews.TagView.SetBorderColor` | TagListView/TagView.swift:31-35 | New state is `Step(old, AssignBorderColor)`, and the colours on screen are current. |
| `TagViews.TagView.SetTextColor` | TagListView/TagView.swift:37-41 | Same, for the text colour. |
| `TagViews.TagView.SetSelectedTextColor` | TagListView/TagView.swift:42-46 | Same, for the selected text colour. |
| `TagViews.TagView.SetPaddingY` | TagListView/TagView.swift:47-52 | New state is `Step(old, AssignPaddingY)`. Top and bottom insets equal the padding. |
| `TagViews.TagView.SetPaddingX` | TagListView/TagView.swift:53-58 | New state is `Step(old, AssignPaddingX)`. Left inset is the padding and the right inset is current. |
| `TagViews.TagView.SetTagBackgroundColor` | TagListView/TagView.swift:60-64 | Restyles, as for the border colour. |
| `TagViews.TagView.SetHighlightedBackgroundColor` | TagListView/TagView.swift:66-70 | Restyles, as for the border colour. |
| `TagViews.TagView.SetSelectedBorderColor` | TagListView/TagView.swift:72-76 | Restyles, as for the border colour. |
| `TagViews.TagView.SetSelectedBackgroundColor` | TagListView/TagView.swift:78-82 | Restyles, as for the border colour. |
| `TagViews.TagView.SetTextFont` | TagListView/TagView.swift:84-88 | New state is `Step(old, AssignTextFont)`: only the font and the label's font change. |
| `TagViews.TagView.SetHighlighted` | TagListView/TagView.swift:110-114 | New state is `Step(old, AssignHighlighted)`, and the colours are current. |
| `TagViews.TagView.SetSelected` | TagListView/TagView.swift:116-120 | New state is `Step(old, AssignSelected)`, and the colours are current. |
| `TagViews.TagView.SetEnableRemoveButton` | TagListView/TagView.swift:129-134 | New state is `Step(old, AssignEnableRemoveButton)`. Hidden iff disabled, and the right inset is current. |
| `TagViews.TagView.SetRemoveButtonImage` | TagListView/TagView.swift:136-141 | New state is `Step(old, AssignRemoveButtonImage)`. The button shows the image and the right inset is current. |
| `TagViews.TagView.LayoutSubviews` | TagListView/TagView.swift:190-198 | New state is `Step(old, Layout)`. When enabled, the remove frame is the trailing full-height strip as wide as the enabled right inset. When disabled, the frame is unchanged. |

## Left out

- Rendering and the platform's view, layer and colour types are left out. A colour is one opaque value, and the conversion from `UIColor` to `CGColor` for the border is the identity. `@IBDesignable`/`@IBInspectable` are left out. Decoding from a layout description is reduced to the title and frame it supplies.
- Text measurement (`sizeWithAttributes`) is a call into the platform. It is the `measure` function given to the constructors, and a missing title measures 0.
- IntrinsicWidthMonotone: states monotonicity in the measured width, not in the title's length, because measurement is a parameter with no assumed properties.
- `CloseButton` is not part of this model. The state of the remove button (hidden flag, normal-state image, frame) lives in fields of `TagView`. Its owner back-reference is recorded as the flag `removeButtonAttached`, set by setupView; weak-reference lifetime has no counterpart.
- The platform's initial display values are assumptions, not taken from this file: no background, a black layer border, a white title, the platform's label font, zero title insets, a zero remove-button frame and an unhidden remove button.
- `onTap` and touch handling are left out. The file only stores the closure and never calls it. The platform's touch tracking is reduced to the `SetHighlighted`/`SetSelected` setters.
- `removeButtonType` and `TagButtonType` are left out because nothing reads them.
- `super.layoutSubviews()` is left out, as is the platform's own placement of the title label.
- Changes of `frame` or of the title after construction are left out because this file has no setter for them. The layout pass uses whatever frame the tag has.
- `CGFloat` is modelled as `real`. The arithmetic is `+`, `-`, `* 2` and `/ 2`, and rounding is not modelled.
