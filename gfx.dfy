/** The image sizes the map screen is laid out around. The images themselves
    belong to the asset loaders (StarmapGFX and CommonGFX); only their widths
    and heights enter the layout and scrollbar arithmetic, so they are
    parameters here. */
module Gfx {

  datatype ImageSizes = ImageSizes(
    // the full galaxy map bitmap
    fullMapWidth: int, fullMapHeight: int,
    // end caps of the horizontal scrollbar knob
    hscrollLeftWidth: int, hscrollLeftHeight: int,
    hscrollRightWidth: int, hscrollRightHeight: int,
    // end caps of the vertical scrollbar knob
    vscrollTopWidth: int, vscrollTopHeight: int, vscrollBottomHeight: int,
    // the inner frame of the map screen
    rightTopWidth: int, rightTopHeight: int,
    rightBottomWidth: int, rightBottomHeight: int,
    bottomLeftWidth: int, bottomLeftHeight: int,
    bottomRightWidth: int, bottomRightHeight: int,
    bottomFillerHeight: int, rightFillerWidth: int,
    // the info bars shared with the other screens
    commonTopLeftHeight: int, commonTopRightHeight: int,
    commonBottomLeftHeight: int, commonBottomRightHeight: int)
  {
    /** Every decoded image has a positive size. */
    predicate Valid()
    {
      && fullMapWidth > 0 && fullMapHeight > 0
      && hscrollLeftWidth > 0 && hscrollLeftHeight > 0
      && hscrollRightWidth > 0 && hscrollRightHeight > 0
      && vscrollTopWidth > 0 && vscrollTopHeight > 0 && vscrollBottomHeight > 0
      && rightTopWidth > 0 && rightTopHeight > 0
      && rightBottomWidth > 0 && rightBottomHeight > 0
      && bottomLeftWidth > 0 && bottomLeftHeight > 0
      && bottomRightWidth > 0 && bottomRightHeight > 0
      && bottomFillerHeight > 0 && rightFillerWidth > 0
      && commonTopLeftHeight > 0 && commonTopRightHeight > 0
      && commonBottomLeftHeight > 0 && commonBottomRightHeight > 0
    }

    /** The narrowest horizontal knob: its two end caps side by side. */
    function HorizontalMinKnob(): int
    {
      hscrollLeftWidth + hscrollRightWidth
    }

    /** The shortest vertical knob as zoom() reserves it: top and bottom caps. */
    function VerticalMinKnob(): int
    {
      vscrollTopHeight + vscrollBottomHeight
    }

    /** The shortest vertical knob as updateScrollKnobs() draws it: the top cap
        plus the height of the horizontal knob's right cap. */
    function VerticalKnobFloor(): int
    {
      vscrollTopHeight + hscrollRightHeight
    }
  }

  /** The image sizes of loaded assets: every one positive. */
  type Sizes = g: ImageSizes | g.Valid()
    witness ImageSizes(1, 1, 1, 1, 1, 1, 1, 1, 1, 1, 1, 1, 1, 1, 1, 1, 1, 1, 1, 1, 1, 1, 1)
}
