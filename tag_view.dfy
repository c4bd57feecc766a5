/**
 * The tag view as an object: its properties are fields, each assignment is a
 * method that runs the property's observer, and each method's new state is
 * the one `TagModel.Step` gives from the old state.
 */
module TagViews {
  import opened Wrappers
  import opened TagStyle
  import opened TagGeometry
  import opened TagModel

  class TagView {
    // the tag's own properties
    var cornerRadius: real
    var borderWidth: real
    var borderColor: Option<Color>
    var textColor: Color
    var selectedTextColor: Color
    var paddingY: real
    var paddingX: real
    var tagBackgroundColor: Color
    var highlightedBackgroundColor: Option<Color>
    var selectedBorderColor: Option<Color>
    var selectedBackgroundColor: Option<Color>
    var textFont: Font
    var highlighted: bool
    var selected: bool
    var enableRemoveButton: bool
    var removeButtonImage: Option<Image>
    var title: Option<string>

    // what the platform displays
    var backgroundColor: Option<Color>
    var layerBorderColor: Option<Color>
    var normalTitleColor: Option<Color>
    var layerCornerRadius: real
    var layerMasksToBounds: bool
    var layerBorderWidth: real
    var titleLabelFont: Option<Font>
    var titleEdgeInsets: Insets
    var frame: Rect

    // the nested remove button
    var removeButtonAttached: bool
    var removeButtonHidden: bool
    var removeButtonNormalImage: Option<Image>
    var removeButtonFrame: Rect

    /** The platform's text measurement, used for the preferred size. */
    const measure: TextMeasure

    /** The whole state of the object as a value. */
    function State(): ViewState
      reads this
    {
      ViewState(
        cornerRadius, borderWidth,
        Palette(borderColor, textColor, selectedTextColor, tagBackgroundColor,
                highlightedBackgroundColor, selectedBorderColor, selectedBackgroundColor),
        paddingY, paddingX, textFont, highlighted, selected, enableRemoveButton, removeButtonImage, title,
        Shown(backgroundColor, layerBorderColor, normalTitleColor),
        layerCornerRadius, layerMasksToBounds, layerBorderWidth, titleLabelFont, titleEdgeInsets, frame,
        removeButtonAttached, removeButtonHidden, removeButtonNormalImage, removeButtonFrame)
    }

    /** A tag created with a title: the declared initial values on a zero frame, then setupView. */
    constructor (title: string, measure: TextMeasure)
      ensures this.measure == measure
      ensures State() == SetUp(Initial(Some(title), ZeroRect), measure)
    {
      this.measure := measure;
      cornerRadius, borderWidth := 0.0, 0.0;
      borderColor, textColor, selectedTextColor := None, White, White;
      paddingY, paddingX := 14.0, 20.0;
      tagBackgroundColor := Gray;
      highlightedBackgroundColor, selectedBorderColor, selectedBackgroundColor := None, None, None;
      textFont := SystemFont12;
      highlighted, selected := false, false;
      enableRemoveButton, removeButtonImage := false, None;
      this.title := Some(title);
      backgroundColor, layerBorderColor, normalTitleColor := None, Some(Black), Some(White);
      layerCornerRadius, layerMasksToBounds, layerBorderWidth := 0.0, false, 0.0;
      titleLabelFont := None;
      titleEdgeInsets := ZeroInsets;
      this.frame := ZeroRect;
      removeButtonAttached, removeButtonHidden := false, false;
      removeButtonNormalImage, removeButtonFrame := None, ZeroRect;
      new;
      SetupView();
    }

    /**
     * A tag read from a layout description, which supplies its title and frame:
     * the declared initial values, then setupView.
     */
    constructor FromLayout(title: Option<string>, frame: Rect, measure: TextMeasure)
      ensures this.measure == measure
      ensures State() == SetUp(Initial(title, frame), measure)
    {
      this.measure := measure;
      cornerRadius, borderWidth := 0.0, 0.0;
      borderColor, textColor, selectedTextColor := None, White, White;
      paddingY, paddingX := 14.0, 20.0;
      tagBackgroundColor := Gray;
      highlightedBackgroundColor, selectedBorderColor, selectedBackgroundColor := None, None, None;
      textFont := SystemFont12;
      highlighted, selected := false, false;
      enableRemoveButton, removeButtonImage := false, None;
      this.title := title;
      backgroundColor, layerBorderColor, normalTitleColor := None, Some(Black), Some(White);
      layerCornerRadius, layerMasksToBounds, layerBorderWidth := 0.0, false, 0.0;
      titleLabelFont := None;
      titleEdgeInsets := ZeroInsets;
      this.frame := frame;
      removeButtonAttached, removeButtonHidden := false, false;
      removeButtonNormalImage, removeButtonFrame := None, ZeroRect;
      new;
      SetupView();
    }

    /** setupView: size the frame to the preferred size and attach the remove button. */
    method SetupView()
      modifies this
      ensures State() == SetUp(old(State()), measure)
      ensures Size(frame.width, frame.height) == IntrinsicContentSize()
    {
      var size := IntrinsicContentSize();
      frame := frame.(width := size.width, height := size.height);
      removeButtonAttached := true;
    }

    /** The remove button's size: its normal image's width, or 10. */
    function RemoveButtonSize(): real
      reads this
    {
      TagGeometry.RemoveButtonSize(removeButtonNormalImage)
    }

    /** The preferred size (intrinsicContentSize). */
    function IntrinsicContentSize(): Size
      reads this
    {
      TagModel.IntrinsicContentSize(State(), measure)
    }

    /** reloadStyles: recompute the colours on screen. */
    method ReloadStyles()
      modifies this
      ensures State() == Restyle(old(State()))
      ensures Holds(StyleCurrent, State())
    {
      if highlighted {
        if highlightedBackgroundColor.Some? {
          backgroundColor := highlightedBackgroundColor;
        }
      } else if selected {
        backgroundColor := Some(selectedBackgroundColor.GetOr(tagBackgroundColor));
        layerBorderColor := selectedBorderColor.Or(borderColor);
        normalTitleColor := Some(selectedTextColor);
      } else {
        backgroundColor := Some(tagBackgroundColor);
        layerBorderColor := borderColor;
        normalTitleColor := Some(textColor);
      }
    }

    /** updateRightInsets: recompute the right title inset. */
    method UpdateRightInsets()
      modifies this
      ensures State() == UpdateRightInset(old(State()))
      ensures Holds(RightInsetCurrent, State())
    {
      if enableRemoveButton {
        titleEdgeInsets := titleEdgeInsets.(right := paddingX / 2.0 + RemoveButtonSize() + paddingX);
      } else {
        titleEdgeInsets := titleEdgeInsets.(right := paddingX);
      }
    }

    method SetCornerRadius(r: real)
      modifies this
      ensures State() == Step(old(State()), AssignCornerRadius(r))
      ensures layerMasksToBounds == (r > 0.0)
    {
      cornerRadius := r;
      layerCornerRadius := cornerRadius;
      layerMasksToBounds := cornerRadius > 0.0;
    }

    method SetBorderWidth(w: real)
      modifies this
      ensures State() == Step(old(State()), AssignBorderWidth(w))
    {
      borderWidth := w;
      layerBorderWidth := borderWidth;
    }

    method SetBorderColor(c: Option<Color>)
      modifies this
      ensures State() == Step(old(State()), AssignBorderColor(c))
      ensures Holds(StyleCurrent, State())
    {
      borderColor := c;
      ReloadStyles();
    }

    method SetTextColor(c: Color)
      modifies this
      ensures State() == Step(old(State()), AssignTextColor(c))
      ensures Holds(StyleCurrent, State())
    {
      textColor := c;
      ReloadStyles();
    }

    method SetSelectedTextColor(c: Color)
      modifies this
      ensures State() == Step(old(State()), AssignSelectedTextColor(c))
      ensures Holds(StyleCurrent, State())
    {
      selectedTextColor := c;
      ReloadStyles();
    }

    method SetPaddingY(p: real)
      modifies this
      ensures State() == Step(old(State()), AssignPaddingY(p))
      ensures titleEdgeInsets.top == p && titleEdgeInsets.bottom == p
    {
      paddingY := p;
      titleEdgeInsets := titleEdgeInsets.(top := paddingY);
      titleEdgeInsets := titleEdgeInsets.(bottom := paddingY);
    }

    method SetPaddingX(p: real)
      modifies this
      ensures State() == Step(old(State()), AssignPaddingX(p))
      ensures titleEdgeInsets.left == p && Holds(RightInsetCurrent, State())
    {
      paddingX := p;
      titleEdgeInsets := titleEdgeInsets.(left := paddingX);
      UpdateRightInsets();
    }

    method SetTagBackgroundColor(c: Color)
      modifies this
      ensures State() == Step(old(State()), AssignTagBackgroundColor(c))
      ensures Holds(StyleCurrent, State())
    {
      tagBackgroundColor := c;
      ReloadStyles();
    }

    method SetHighlightedBackgroundColor(c: Option<Color>)
      modifies this
      ensures State() == Step(old(State()), AssignHighlightedBackgroundColor(c))
      ensures Holds(StyleCurrent, State())
    {
      highlightedBackgroundColor := c;
      ReloadStyles();
    }

    method SetSelectedBorderColor(c: Option<Color>)
      modifies this
      ensures State() == Step(old(State()), AssignSelectedBorderColor(c))
      ensures Holds(StyleCurrent, State())
    {
      selectedBorderColor := c;
      ReloadStyles();
    }

    method SetSelectedBackgroundColor(c: Option<Color>)
      modifies this
      ensures State() == Step(old(State()), AssignSelectedBackgroundColor(c))
      ensures Holds(StyleCurrent, State())
    {
      selectedBackgroundColor := c;
      ReloadStyles();
    }

    method SetTextFont(f: Font)
      modifies this
      ensures State() == Step(old(State()), AssignTextFont(f))
    {
      textFont := f;
      titleLabelFont := Some(textFont);
    }

    method SetHighlighted(b: bool)
      modifies this
      ensures State() == Step(old(State()), AssignHighlighted(b))
      ensures Holds(StyleCurrent, State())
    {
      highlighted := b;
      ReloadStyles();
    }

    method SetSelected(b: bool)
      modifies this
      ensures State() == Step(old(State()), AssignSelected(b))
      ensures Holds(StyleCurrent, State())
    {
      selected := b;
      ReloadStyles();
    }

    method SetEnableRemoveButton(b: bool)
      modifies this
      ensures State() == Step(old(State()), AssignEnableRemoveButton(b))
      ensures removeButtonHidden == !b && Holds(RightInsetCurrent, State())
    {
      enableRemoveButton := b;
      removeButtonHidden := !enableRemoveButton;
      UpdateRightInsets();
    }

    method SetRemoveButtonImage(i: Option<Image>)
      modifies this
      ensures State() == Step(old(State()), AssignRemoveButtonImage(i))
      ensures removeButtonNormalImage == i && Holds(RightInsetCurrent, State())
    {
      removeButtonImage := i;
      removeButtonNormalImage := removeButtonImage;
      UpdateRightInsets();
    }

    /** layoutSubviews: with the remove button enabled, anchor it to the trailing edge. */
    method LayoutSubviews()
      modifies this
      ensures State() == Step(old(State()), Layout)
      ensures enableRemoveButton ==>
                removeButtonFrame.x + Width(removeButtonFrame) == Width(frame) && removeButtonFrame.y == 0.0 &&
                removeButtonFrame.height == Height(frame) &&
                removeButtonFrame.width == RightInset(paddingX, true, RemoveButtonSize())
      ensures !enableRemoveButton ==> removeButtonFrame == old(removeButtonFrame)
    {
      if enableRemoveButton {
        removeButtonFrame := removeButtonFrame.(width := paddingX / 2.0 + RemoveButtonSize() + paddingX);
        removeButtonFrame := removeButtonFrame.(x := Width(frame) - Width(removeButtonFrame));
        removeButtonFrame := removeButtonFrame.(height := Height(frame));
        removeButtonFrame := removeButtonFrame.(y := 0.0);
      }
    }
  }
}
