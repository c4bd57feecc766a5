/**
 * A tag view as a value: its properties, what the platform displays for it,
 * and the effect of each property assignment (with its observer) and of a
 * layout pass. The class in module TagViews is proved against `Step`.
 */
module TagModel {
  import opened Wrappers
  import opened TagStyle
  import opened TagGeometry

  datatype ViewState = ViewState(
    // the tag's own properties
    cornerRadius: real,
    borderWidth: real,
    palette: Palette,
    paddingY: real,
    paddingX: real,
    textFont: Font,
    highlighted: bool,
    selected: bool,
    enableRemoveButton: bool,
    removeButtonImage: Option<Image>,
    title: Option<string>,
    // what the platform displays, as the observers leave it
    shown: Shown,
    layerCornerRadius: real,
    masksToBounds: bool,
    layerBorderWidth: real,
    labelFont: Option<Font>,      // None: the platform's default label font
    titleEdgeInsets: Insets,
    frame: Rect,
    // the nested remove button
    removeButtonAttached: bool,   // added as a subview, with this tag as its owner
    removeButtonHidden: bool,
    removeButtonNormalImage: Option<Image>,
    removeButtonFrame: Rect)

  /** The colours on screen before any observer has run: no background, a black border, a white title. */
  const PlatformShown := Shown(None, Some(Black), Some(White))

  /**
   * A tag whose stored properties hold their declared initial values. No
   * observer runs for these, so the displayed state is the platform's.
   */
  function Initial(title: Option<string>, frame: Rect): ViewState {
    ViewState(
      0.0, 0.0, DefaultPalette, 14.0, 20.0, SystemFont12, false, false, false, None, title,
      PlatformShown, 0.0, false, 0.0, None, ZeroInsets, frame,
      false, false, None, ZeroRect)
  }

  /** The preferred size of a tag in this state (intrinsicContentSize). */
  function IntrinsicContentSize(v: ViewState, measure: TextMeasure): Size {
    IntrinsicSize(TextWidth(v.title, v.textFont, measure), v.textFont.pointSize, v.paddingX, v.paddingY,
                  v.enableRemoveButton, RemoveButtonSize(v.removeButtonNormalImage))
  }

  /** setupView: take the preferred size as the frame's size, attach the remove button. */
  function SetUp(v: ViewState, measure: TextMeasure): ViewState {
    var size := IntrinsicContentSize(v, measure);
    v.(frame := v.frame.(width := size.width, height := size.height), removeButtonAttached := true)
  }

  /** reloadStyles on a value: only the displayed colours change. */
  function Restyle(v: ViewState): ViewState {
    v.(shown := Restyled(v.palette, v.highlighted, v.selected, v.shown))
  }

  /** updateRightInsets on a value: only the right title inset changes. */
  function UpdateRightInset(v: ViewState): ViewState {
    v.(titleEdgeInsets := v.titleEdgeInsets.(right :=
      RightInset(v.paddingX, v.enableRemoveButton, RemoveButtonSize(v.removeButtonNormalImage))))
  }

  /** One assignment to a property of the tag (its observer included), or one layout pass. */
  datatype Event =
    | AssignCornerRadius(radius: real)
    | AssignBorderWidth(strokeWidth: real)
    | AssignBorderColor(border: Option<Color>)
    | AssignTextColor(text: Color)
    | AssignSelectedTextColor(selectedText: Color)
    | AssignPaddingY(padY: real)
    | AssignPaddingX(padX: real)
    | AssignTagBackgroundColor(tagBackground: Color)
    | AssignHighlightedBackgroundColor(highlightedBackground: Option<Color>)
    | AssignSelectedBorderColor(selectedBorder: Option<Color>)
    | AssignSelectedBackgroundColor(selectedBackground: Option<Color>)
    | AssignTextFont(font: Font)
    | AssignHighlighted(isHighlighted: bool)
    | AssignSelected(isSelected: bool)
    | AssignEnableRemoveButton(enable: bool)
    | AssignRemoveButtonImage(image: Option<Image>)
    | Layout

  /** The events whose observer is reloadStyles. */
  predicate IsStyleEvent(e: Event) {
    e.AssignBorderColor? || e.AssignTextColor? || e.AssignSelectedTextColor? ||
    e.AssignTagBackgroundColor? || e.AssignHighlightedBackgroundColor? ||
    e.AssignSelectedBorderColor? || e.AssignSelectedBackgroundColor? ||
    e.AssignHighlighted? || e.AssignSelected?
  }

  /** The new state after one event. */
  function Step(v: ViewState, e: Event): ViewState {
    match e
    case AssignCornerRadius(r) => v.(cornerRadius := r, layerCornerRadius := r, masksToBounds := r > 0.0)
    case AssignBorderWidth(w) => v.(borderWidth := w, layerBorderWidth := w)
    case AssignBorderColor(c) => Restyle(v.(palette := v.palette.(borderColor := c)))
    case AssignTextColor(c) => Restyle(v.(palette := v.palette.(textColor := c)))
    case AssignSelectedTextColor(c) => Restyle(v.(palette := v.palette.(selectedTextColor := c)))
    case AssignPaddingY(p) => v.(paddingY := p, titleEdgeInsets := v.titleEdgeInsets.(top := p, bottom := p))
    case AssignPaddingX(p) => UpdateRightInset(v.(paddingX := p, titleEdgeInsets := v.titleEdgeInsets.(left := p)))
    case AssignTagBackgroundColor(c) => Restyle(v.(palette := v.palette.(tagBackgroundColor := c)))
    case AssignHighlightedBackgroundColor(c) => Restyle(v.(palette := v.palette.(highlightedBackgroundColor := c)))
    case AssignSelectedBorderColor(c) => Restyle(v.(palette := v.palette.(selectedBorderColor := c)))
    case AssignSelectedBackgroundColor(c) => Restyle(v.(palette := v.palette.(selectedBackgroundColor := c)))
    case AssignTextFont(f) => v.(textFont := f, labelFont := Some(f))
    case AssignHighlighted(b) => Restyle(v.(highlighted := b))
    case AssignSelected(b) => Restyle(v.(selected := b))
    case AssignEnableRemoveButton(b) => UpdateRightInset(v.(enableRemoveButton := b, removeButtonHidden := !b))
    case AssignRemoveButtonImage(i) => UpdateRightInset(v.(removeButtonImage := i, removeButtonNormalImage := i))
    case Layout =>
      if v.enableRemoveButton then
        v.(removeButtonFrame := LaidOutRemoveFrame(v.removeButtonFrame, v.frame, v.paddingX,
                                                   RemoveButtonSize(v.removeButtonNormalImage)))
      else v
  }

  /** The state after a sequence of events, in order. */
  function Run(v: ViewState, es: seq<Event>): ViewState
    decreases |es|
  {
    if es == [] then v else Run(Step(v, es[0]), es[1..])
  }

  /** A piece of displayed state that an observer derives from the properties. */
  datatype Derived =
    | StyleCurrent       // the colours on screen are what reloadStyles would leave
    | VerticalInsets     // top and bottom title insets equal paddingY
    | LeftInset          // left title inset equals paddingX
    | RightInsetCurrent  // right title inset is what updateRightInsets would set
    | Clipping           // layer corner radius follows cornerRadius, clipping iff it is positive
    | BorderStroke       // layer border width follows borderWidth
    | LabelFont          // the title label uses textFont
    | RemoveVisibility   // the remove button is hidden iff it is disabled
    | RemoveImage        // the remove button shows removeButtonImage

  predicate Holds(d: Derived, v: ViewState) {
    match d
    case StyleCurrent => Restyled(v.palette, v.highlighted, v.selected, v.shown) == v.shown
    case VerticalInsets => v.titleEdgeInsets.top == v.paddingY && v.titleEdgeInsets.bottom == v.paddingY
    case LeftInset => v.titleEdgeInsets.left == v.paddingX
    case RightInsetCurrent =>
      v.titleEdgeInsets.right == RightInset(v.paddingX, v.enableRemoveButton, RemoveButtonSize(v.removeButtonNormalImage))
    case Clipping => v.layerCornerRadius == v.cornerRadius && v.masksToBounds == (v.cornerRadius > 0.0)
    case BorderStroke => v.layerBorderWidth == v.borderWidth
    case LabelFont => v.labelFont == Some(v.textFont)
    case RemoveVisibility => v.removeButtonHidden == !v.enableRemoveButton
    case RemoveImage => v.removeButtonNormalImage == v.removeButtonImage
  }

  /** The events whose observer (re)computes the derived state `d`. */
  predicate Establishes(e: Event, d: Derived) {
    match d
    case StyleCurrent => IsStyleEvent(e)
    case VerticalInsets => e.AssignPaddingY?
    case LeftInset => e.AssignPaddingX?
    case RightInsetCurrent => e.AssignPaddingX? || e.AssignEnableRemoveButton? || e.AssignRemoveButtonImage?
    case Clipping => e.AssignCornerRadius?
    case BorderStroke => e.AssignBorderWidth?
    case LabelFont => e.AssignTextFont?
    case RemoveVisibility => e.AssignEnableRemoveButton?
    case RemoveImage => e.AssignRemoveButtonImage?
  }

  /** Every event whose observer derives `d` establishes it, and every other event keeps it. */
  lemma StepKeeps(v: ViewState, e: Event, d: Derived)
    requires Holds(d, v) || Establishes(e, d)
    ensures Holds(d, Step(v, e))
  {
  }

  /**
   * Once some event in a run has derived `d` (or it held at the start), it
   * still holds at the end of the run: the setters keep derived state
   * consistent whatever is assigned afterwards.
   */
  lemma {:induction false} RunKeeps(v: ViewState, es: seq<Event>, d: Derived)
    requires Holds(d, v) || exists i :: 0 <= i < |es| && Establishes(es[i], d)
    ensures Holds(d, Run(v, es))
    decreases |es|
  {
    if es != [] {
      if Holds(d, v) || Establishes(es[0], d) {
        StepKeeps(v, es[0], d);
      } else {
        var i :| 0 <= i < |es| && Establishes(es[i], d);
        assert i != 0;
        assert Establishes(es[1..][i - 1], d);
      }
      RunKeeps(Step(v, es[0]), es[1..], d);
    }
  }

  /** A colour or flag assignment changes the colour configuration, the flags and the colours on screen only. */
  lemma StyleStepKeepsGeometry(v: ViewState, e: Event)
    requires IsStyleEvent(e)
    ensures Step(v, e) == v.(palette := Step(v, e).palette, highlighted := Step(v, e).highlighted,
                             selected := Step(v, e).selected, shown := Step(v, e).shown)
  {
  }

  /** Any other event leaves the colour configuration, the flags and the colours on screen alone. */
  lemma OtherStepKeepsColors(v: ViewState, e: Event)
    requires !IsStyleEvent(e)
    ensures Step(v, e).shown == v.shown && Step(v, e).palette == v.palette
    ensures Step(v, e).highlighted == v.highlighted && Step(v, e).selected == v.selected
  {
  }

  /**
   * One event on a highlighted tag, other than clearing the flag: the tag stays
   * highlighted, its border and title colours stay, and its background is the
   * one it had, the configured highlighted colour, or the one just assigned.
   */
  lemma HighlightedStep(v: ViewState, e: Event)
    requires v.highlighted && e != AssignHighlighted(false)
    ensures Step(v, e).highlighted
    ensures Step(v, e).shown.border == v.shown.border && Step(v, e).shown.title == v.shown.title
    ensures Step(v, e).palette.highlightedBackgroundColor == v.palette.highlightedBackgroundColor ||
            (e.AssignHighlightedBackgroundColor? &&
             Step(v, e).palette.highlightedBackgroundColor == e.highlightedBackground)
    ensures Step(v, e).shown.background == v.shown.background ||
            Step(v, e).shown.background == Step(v, e).palette.highlightedBackgroundColor
  {
  }

  /**
   * A run of colour and flag assignments changes the colour configuration,
   * the flags and the colours on screen, and nothing else.
   */
  lemma {:induction false} RunOfStyleEventsKeepsGeometry(v: ViewState, es: seq<Event>)
    requires forall i :: 0 <= i < |es| ==> IsStyleEvent(es[i])
    ensures Run(v, es) == v.(palette := Run(v, es).palette, highlighted := Run(v, es).highlighted,
                             selected := Run(v, es).selected, shown := Run(v, es).shown)
    decreases |es|
  {
    if es != [] {
      StyleStepKeepsGeometry(v, es[0]);
      assert forall i :: 0 <= i < |es[1..]| ==> IsStyleEvent(es[1..][i]) by {
        forall i | 0 <= i < |es[1..]| ensures IsStyleEvent(es[1..][i]) {
          assert es[1..][i] == es[i + 1];
        }
      }
      RunOfStyleEventsKeepsGeometry(Step(v, es[0]), es[1..]);
    }
  }

  /** A run without colour or flag assignments leaves the colours on screen and their configuration alone. */
  lemma {:induction false} RunOfOtherEventsKeepsColors(v: ViewState, es: seq<Event>)
    requires forall i :: 0 <= i < |es| ==> !IsStyleEvent(es[i])
    ensures Run(v, es).shown == v.shown && Run(v, es).palette == v.palette
    ensures Run(v, es).highlighted == v.highlighted && Run(v, es).selected == v.selected
    decreases |es|
  {
    if es != [] {
      OtherStepKeepsColors(v, es[0]);
      assert forall i :: 0 <= i < |es[1..]| ==> !IsStyleEvent(es[1..][i]) by {
        forall i | 0 <= i < |es[1..]| ensures !IsStyleEvent(es[1..][i]) {
          assert es[1..][i] == es[i + 1];
        }
      }
      RunOfOtherEventsKeepsColors(Step(v, es[0]), es[1..]);
    }
  }

  /**
   * While a tag stays highlighted, no assignment changes its border or title
   * colour, and its background is either the one it had or a highlighted
   * colour: the one configured at the start or one assigned during the run.
   */
  lemma {:induction false} RunWhileHighlighted(v: ViewState, es: seq<Event>)
    requires v.highlighted
    requires forall i :: 0 <= i < |es| ==> es[i] != AssignHighlighted(false)
    ensures Run(v, es).highlighted
    ensures Run(v, es).shown.border == v.shown.border && Run(v, es).shown.title == v.shown.title
    ensures Run(v, es).shown.background == v.shown.background ||
            Run(v, es).shown.background == v.palette.highlightedBackgroundColor ||
            exists i :: 0 <= i < |es| && es[i].AssignHighlightedBackgroundColor? &&
                        Run(v, es).shown.background == es[i].highlightedBackground
    decreases |es|
  {
    if es != [] {
      var w := Step(v, es[0]);
      HighlightedStep(v, es[0]);
      assert forall i :: 0 <= i < |es[1..]| ==> es[1..][i] != AssignHighlighted(false) by {
        forall i | 0 <= i < |es[1..]| ensures es[1..][i] != AssignHighlighted(false) {
          assert es[1..][i] == es[i + 1];
        }
      }
      RunWhileHighlighted(w, es[1..]);
      var r := Run(w, es[1..]);
      assert r == Run(v, es);
      if r.shown.background == w.shown.background {
        if es[0].AssignHighlightedBackgroundColor? && w.shown.background != v.shown.background {
          assert r.shown.background == es[0].highlightedBackground;
        }
      } else if r.shown.background == w.palette.highlightedBackgroundColor {
        if es[0].AssignHighlightedBackgroundColor? {
          assert r.shown.background == es[0].highlightedBackground;
        }
      } else {
        var j :| 0 <= j < |es[1..]| && es[1..][j].AssignHighlightedBackgroundColor? &&
                 r.shown.background == es[1..][j].highlightedBackground;
        assert es[j + 1] == es[1..][j];
      }
    }
  }

  /**
   * No observer runs for the declared initial values, so a fresh tag's
   * displayed state is not yet derived from its properties: the colours are
   * not restyled, the title insets are zero rather than the paddings, and the
   * disabled remove button is not hidden.
   */
  lemma FreshTagNotDerived(title: Option<string>, frame: Rect)
    ensures !Holds(StyleCurrent, Initial(title, frame))
    ensures !Holds(VerticalInsets, Initial(title, frame))
    ensures !Holds(LeftInset, Initial(title, frame))
    ensures !Holds(RightInsetCurrent, Initial(title, frame))
    ensures !Holds(RemoveVisibility, Initial(title, frame))
    ensures Holds(Clipping, Initial(title, frame)) && Holds(BorderStroke, Initial(title, frame))
  {
  }

  /** setupView gives the frame the preferred size, keeps its origin and attaches the remove button. */
  lemma SetUpSizesFrame(v: ViewState, measure: TextMeasure)
    ensures SetUp(v, measure).frame.width == IntrinsicContentSize(v, measure).width
    ensures SetUp(v, measure).frame.height == IntrinsicContentSize(v, measure).height
    ensures SetUp(v, measure).frame.x == v.frame.x && SetUp(v, measure).frame.y == v.frame.y
    ensures SetUp(v, measure).removeButtonAttached
    ensures SetUp(v, measure).(frame := v.frame, removeButtonAttached := v.removeButtonAttached) == v
  {
  }

  /**
   * The narrow setters: paddingY moves only the top and bottom insets,
   * cornerRadius clips iff it is positive, enableRemoveButton hides the
   * button iff it is disabled, and textFont changes only the font.
   */
  lemma NarrowSetters(v: ViewState, x: real, b: bool, f: Font)
    ensures Step(v, AssignPaddingY(x)).titleEdgeInsets == Insets(x, v.titleEdgeInsets.left, x, v.titleEdgeInsets.right)
    ensures Step(v, AssignPaddingY(x)).(paddingY := v.paddingY, titleEdgeInsets := v.titleEdgeInsets) == v
    ensures Step(v, AssignCornerRadius(x)).masksToBounds == (x > 0.0)
    ensures Step(v, AssignEnableRemoveButton(b)).removeButtonHidden == !b
    ensures Step(v, AssignTextFont(f)).shown == v.shown
    ensures Step(v, AssignTextFont(f)).titleEdgeInsets == v.titleEdgeInsets
    ensures Step(v, AssignTextFont(f)).(textFont := v.textFont, labelFont := v.labelFont) == v
  {
  }

  /**
   * Assigning paddingX sets the left inset to it and the right inset to the
   * padding alone or the padding plus the remove strip, as the remove button
   * is disabled or enabled.
   */
  lemma PaddingXSetsBothInsets(v: ViewState, p: real)
    ensures Step(v, AssignPaddingX(p)).titleEdgeInsets.left == p
    ensures !v.enableRemoveButton ==> Step(v, AssignPaddingX(p)).titleEdgeInsets.right == p
    ensures v.enableRemoveButton ==>
              Step(v, AssignPaddingX(p)).titleEdgeInsets.right == p / 2.0 + RemoveButtonSize(v.removeButtonNormalImage) + p
  {
  }

  /**
   * Enabling the remove button widens the preferred size by exactly the
   * remove button size plus half a padding, and leaves its height alone.
   */
  lemma EnablingRemoveButtonWidens(v: ViewState, measure: TextMeasure)
    ensures IntrinsicContentSize(Step(v, AssignEnableRemoveButton(true)), measure).width
            == IntrinsicContentSize(Step(v, AssignEnableRemoveButton(false)), measure).width
               + RemoveButtonSize(v.removeButtonNormalImage) + v.paddingX / 2.0
    ensures IntrinsicContentSize(Step(v, AssignEnableRemoveButton(true)), measure).height
            == IntrinsicContentSize(Step(v, AssignEnableRemoveButton(false)), measure).height
            == v.textFont.pointSize + 2.0 * v.paddingY
  {
  }

  /**
   * With the insets derived, the preferred size holds exactly the measured
   * title between the left and right insets and the font between the top and
   * bottom insets.
   */
  lemma PreferredSizeFitsTitle(v: ViewState, measure: TextMeasure)
    requires Holds(LeftInset, v) && Holds(RightInsetCurrent, v) && Holds(VerticalInsets, v)
    ensures IntrinsicContentSize(v, measure).width - v.titleEdgeInsets.left - v.titleEdgeInsets.right
            == TextWidth(v.title, v.textFont, measure)
    ensures IntrinsicContentSize(v, measure).height - v.titleEdgeInsets.top - v.titleEdgeInsets.bottom
            == v.textFont.pointSize
  {
  }

  /**
   * A layout pass with the remove button enabled puts it over the trailing
   * strip reserved by the right inset, at full height; with the button
   * disabled it changes nothing.
   */
  lemma LayoutPlacesRemoveButton(v: ViewState)
    ensures !v.enableRemoveButton ==> Step(v, Layout) == v
    ensures v.enableRemoveButton ==>
              var r := Step(v, Layout).removeButtonFrame;
              r.x + Width(r) == Width(v.frame) && r.y == 0.0 && r.height == Height(v.frame) &&
              r.width == RightInset(v.paddingX, true, RemoveButtonSize(v.removeButtonNormalImage))
    ensures v.enableRemoveButton && Holds(RightInsetCurrent, v) ==>
              Step(v, Layout).removeButtonFrame.width == v.titleEdgeInsets.right
    ensures Step(v, Layout).(removeButtonFrame := v.removeButtonFrame) == v
  {
  }
}
