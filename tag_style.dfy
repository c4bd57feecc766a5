/**
 * Style resolution of a tag: from its colour configuration and its two
 * interaction flags to the colours actually on screen.
 */
module TagStyle {
  import opened Wrappers

  /** A colour, kept opaque: the tag only stores, compares and forwards colours. */
  datatype Color = Color(name: string)

  const White := Color("white")
  const Gray := Color("gray")
  const Black := Color("black")

  /** The seven colour properties a tag is styled from. */
  datatype Palette = Palette(
    borderColor: Option<Color>,
    textColor: Color,
    selectedTextColor: Color,
    tagBackgroundColor: Color,
    highlightedBackgroundColor: Option<Color>,
    selectedBorderColor: Option<Color>,
    selectedBackgroundColor: Option<Color>)

  /** The declared initial values of the colour properties. */
  const DefaultPalette := Palette(None, White, White, Gray, None, None, None)

  /**
   * The colours on screen: the button's background colour, the layer's border
   * colour and the title colour of the normal control state.
   */
  datatype Shown = Shown(background: Option<Color>, border: Option<Color>, title: Option<Color>)

  /**
   * What `reloadStyles` leaves on screen, given what was on screen before.
   * Highlighted wins over selected, selected over the plain look; a highlighted
   * tag without a highlighted colour keeps its current background.
   */
  function Restyled(p: Palette, highlighted: bool, selected: bool, current: Shown): Shown {
    if highlighted then
      if p.highlightedBackgroundColor.Some? then current.(background := p.highlightedBackgroundColor)
      else current
    else if selected then
      Shown(Some(p.selectedBackgroundColor.GetOr(p.tagBackgroundColor)),
            p.selectedBorderColor.Or(p.borderColor),
            Some(p.selectedTextColor))
    else
      Shown(Some(p.tagBackgroundColor), p.borderColor, Some(p.textColor))
  }

  /** Highlighted: only the background can change, and only to the configured highlighted colour. */
  lemma HighlightedBranch(p: Palette, selected: bool, current: Shown)
    ensures Restyled(p, true, selected, current).border == current.border
    ensures Restyled(p, true, selected, current).title == current.title
    ensures Restyled(p, true, selected, current).background ==
            if p.highlightedBackgroundColor.Some? then p.highlightedBackgroundColor else current.background
  {
  }

  /** Selected but not highlighted: selected colours, each falling back to its base colour. */
  lemma SelectedBranch(p: Palette, current: Shown)
    ensures Restyled(p, false, true, current).background == Some(p.selectedBackgroundColor.GetOr(p.tagBackgroundColor))
    ensures Restyled(p, false, true, current).border ==
            if p.selectedBorderColor.Some? then p.selectedBorderColor else p.borderColor
    ensures Restyled(p, false, true, current).border.None? <==> p.selectedBorderColor.None? && p.borderColor.None?
    ensures Restyled(p, false, true, current).title == Some(p.selectedTextColor)
  {
  }

  /** Neither flag: the base colours. */
  lemma NormalBranch(p: Palette, current: Shown)
    ensures Restyled(p, false, false, current) == Shown(Some(p.tagBackgroundColor), p.borderColor, Some(p.textColor))
  {
  }

  /** Restyling twice with an unchanged configuration gives what restyling once gives. */
  lemma RestyledIdempotent(p: Palette, highlighted: bool, selected: bool, current: Shown)
    ensures Restyled(p, highlighted, selected, Restyled(p, highlighted, selected, current))
            == Restyled(p, highlighted, selected, current)
  {
  }

  /**
   * The previous screen matters only in the highlighted look: outside it the
   * result is the same whatever was shown before, and inside it the background
   * is forgotten as soon as a highlighted colour is configured.
   */
  lemma RestyledHistory(p: Palette, highlighted: bool, selected: bool, c1: Shown, c2: Shown)
    ensures !highlighted ==> Restyled(p, highlighted, selected, c1) == Restyled(p, highlighted, selected, c2)
    ensures highlighted && p.highlightedBackgroundColor.Some? ==>
              Restyled(p, highlighted, selected, c1).background == Restyled(p, highlighted, selected, c2).background
    ensures highlighted && p.highlightedBackgroundColor.None? ==>
              Restyled(p, highlighted, selected, c1) == c1
  {
  }

  /** A selected tag without a selected background falls back to the tag background (gray by default). */
  lemma SelectedFallsBackToGray(current: Shown)
    ensures Restyled(DefaultPalette, false, true, current).background == Some(Gray)
  {
  }

  /** A highlighted tag without a highlighted colour stays blue when it was blue. */
  lemma HighlightedKeepsBlue(p: Palette, selected: bool, current: Shown)
    requires p.highlightedBackgroundColor.None?
    requires current.background == Some(Color("blue"))
    ensures Restyled(p, true, selected, current).background == Some(Color("blue"))
  {
  }
}
