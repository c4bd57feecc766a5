/** The geometry of a tag: its preferred size, its title insets and where its remove button goes. */
module TagGeometry {
  import opened Wrappers

  datatype Size = Size(width: real, height: real)

  /** A rectangle as origin and (possibly negative) size. */
  datatype Rect = Rect(x: real, y: real, width: real, height: real)

  const ZeroRect := Rect(0.0, 0.0, 0.0, 0.0)

  /** The standardised width of a rectangle, as `CGRect.width` reports it. */
  function Width(r: Rect): real {
    if r.width < 0.0 then -r.width else r.width
  }

  /** The standardised height of a rectangle, as `CGRect.height` reports it. */
  function Height(r: Rect): real {
    if r.height < 0.0 then -r.height else r.height
  }

  /** Room kept free inside the button around its title. */
  datatype Insets = Insets(top: real, left: real, bottom: real, right: real)

  const ZeroInsets := Insets(0.0, 0.0, 0.0, 0.0)

  /** An image; only its width matters here. */
  datatype Image = Image(width: real, height: real)

  /** A font; the tag uses its point size and hands it to text measurement. */
  datatype Font = Font(name: string, pointSize: real)

  const SystemFont12 := Font("system", 12.0)

  /** The width of the title text at a font, supplied by the platform's text layout. */
  type TextMeasure = (string, Font) -> real

  /** The measured width of an optional title; no title measures as zero. */
  function TextWidth(title: Option<string>, font: Font, measure: TextMeasure): real {
    match title
    case None => 0.0
    case Some(t) => measure(t, font)
  }

  /** The size the remove button is reckoned at when it has no image of its own. */
  const DefaultRemoveButtonSize: real := 10.0

  /** The width of the remove button's normal-state image, or the default when it has none. */
  function RemoveButtonSize(normalImage: Option<Image>): real {
    match normalImage
    case Some(img) => img.width
    case None => DefaultRemoveButtonSize
  }

  /** The trailing strip the enabled remove button takes up. */
  function RemoveStripWidth(paddingX: real, removeButtonSize: real): real {
    paddingX / 2.0 + removeButtonSize + paddingX
  }

  /** The right title inset (updateRightInsets). */
  function RightInset(paddingX: real, enabled: bool, removeButtonSize: real): real {
    if enabled then RemoveStripWidth(paddingX, removeButtonSize) else paddingX
  }

  /** The preferred size of the tag (intrinsicContentSize), from the measured title width. */
  function IntrinsicSize(textWidth: real, pointSize: real, paddingX: real, paddingY: real,
                         enabled: bool, removeButtonSize: real): Size
  {
    var size := Size(textWidth, 0.0);
    var size := size.(height := pointSize + paddingY * 2.0);
    var size := size.(width := size.width + paddingX * 2.0);
    if enabled then size.(width := size.width + (removeButtonSize + paddingX / 2.0)) else size
  }

  /**
   * The remove button's frame after a layout pass with the button enabled,
   * written as the four successive field updates of layoutSubviews; the
   * button's earlier frame is overwritten entirely.
   */
  function LaidOutRemoveFrame(earlier: Rect, frame: Rect, paddingX: real, removeButtonSize: real): Rect {
    var r := earlier.(width := RemoveStripWidth(paddingX, removeButtonSize));
    var r := r.(x := Width(frame) - Width(r));
    var r := r.(height := Height(frame));
    r.(y := 0.0)
  }

  /** Right inset: the padding alone when disabled, padding plus the remove strip when enabled. */
  lemma RightInsetCases(paddingX: real, enabled: bool, removeButtonSize: real)
    ensures !enabled ==> RightInset(paddingX, enabled, removeButtonSize) == paddingX
    ensures enabled ==> RightInset(paddingX, enabled, removeButtonSize) == paddingX / 2.0 + removeButtonSize + paddingX
  {
  }

  /** The remove button is reckoned at its image's width, or 10 without an image. */
  lemma RemoveButtonSizeCases(normalImage: Option<Image>)
    ensures normalImage.Some? ==> RemoveButtonSize(normalImage) == normalImage.value.width
    ensures normalImage.None? ==> RemoveButtonSize(normalImage) == 10.0
  {
  }

  /**
   * The preferred height is the font size plus the vertical padding on both
   * sides, whatever the title and the remove button; the width is the text
   * plus the horizontal padding on both sides, and enabling the remove
   * button widens it by exactly the remove button size plus half a padding.
   */
  lemma IntrinsicSizeShape(textWidth: real, pointSize: real, paddingX: real, paddingY: real,
                           enabled: bool, removeButtonSize: real)
    ensures IntrinsicSize(textWidth, pointSize, paddingX, paddingY, enabled, removeButtonSize).height
            == pointSize + 2.0 * paddingY
    ensures IntrinsicSize(textWidth, pointSize, paddingX, paddingY, false, removeButtonSize).width
            == textWidth + 2.0 * paddingX
    ensures IntrinsicSize(textWidth, pointSize, paddingX, paddingY, true, removeButtonSize).width
            == IntrinsicSize(textWidth, pointSize, paddingX, paddingY, false, removeButtonSize).width
               + removeButtonSize + paddingX / 2.0
  {
  }

  /** A wider title never gives a narrower tag. */
  lemma IntrinsicWidthMonotone(w1: real, w2: real, pointSize: real, paddingX: real, paddingY: real,
                               enabled: bool, removeButtonSize: real)
    requires w1 <= w2
    ensures IntrinsicSize(w1, pointSize, paddingX, paddingY, enabled, removeButtonSize).width
            <= IntrinsicSize(w2, pointSize, paddingX, paddingY, enabled, removeButtonSize).width
  {
  }

  /**
   * The preferred size leaves exactly the measured text between the title
   * insets: what enabling the remove button adds to the width is what it adds
   * to the right inset, in both states.
   */
  lemma IntrinsicSizeFitsTitle(textWidth: real, pointSize: real, paddingX: real, paddingY: real,
                               enabled: bool, removeButtonSize: real)
    ensures IntrinsicSize(textWidth, pointSize, paddingX, paddingY, enabled, removeButtonSize).width
            - paddingX - RightInset(paddingX, enabled, removeButtonSize) == textWidth
    ensures IntrinsicSize(textWidth, pointSize, paddingX, paddingY, enabled, removeButtonSize).height
            - paddingY - paddingY == pointSize
  {
  }

  /**
   * The laid-out remove button is the trailing strip of the frame: as wide as
   * the enabled right inset, flush with the trailing edge, at the top and of
   * full height, wherever it was before.
   */
  lemma LaidOutRemoveFrameTrailing(earlier: Rect, frame: Rect, paddingX: real, removeButtonSize: real)
    ensures LaidOutRemoveFrame(earlier, frame, paddingX, removeButtonSize).width
            == RightInset(paddingX, true, removeButtonSize)
    ensures LaidOutRemoveFrame(earlier, frame, paddingX, removeButtonSize).x
            + Width(LaidOutRemoveFrame(earlier, frame, paddingX, removeButtonSize)) == Width(frame)
    ensures LaidOutRemoveFrame(earlier, frame, paddingX, removeButtonSize).y == 0.0
    ensures LaidOutRemoveFrame(earlier, frame, paddingX, removeButtonSize).height == Height(frame)
    ensures LaidOutRemoveFrame(earlier, frame, paddingX, removeButtonSize)
            == LaidOutRemoveFrame(ZeroRect, frame, paddingX, removeButtonSize)
  {
  }

  /**
   * The worked example: padding 20 by 14, a 12-point font, a 10-point remove
   * image. Disabled: 40 high and the text plus 40 wide. Enabled: right inset
   * 40, and 20 wider than disabled.
   */
  lemma ExampleTagGeometry(textWidth: real)
    ensures IntrinsicSize(textWidth, 12.0, 20.0, 14.0, false, 10.0) == Size(textWidth + 40.0, 40.0)
    ensures RightInset(20.0, true, RemoveButtonSize(Some(Image(10.0, 10.0)))) == 40.0
    ensures IntrinsicSize(textWidth, 12.0, 20.0, 14.0, true, 10.0) == Size(textWidth + 60.0, 40.0)
  {
  }
}
