# StarmapRenderer view state, in Dafny

This project models the galaxy map screen of open-ig (`StarmapRenderer`, a Swing
component) without its drawing. The screen keeps its view state in fields:
- the rectangles of its regions and buttons;
- the zoom factor;
- the range, value and factor of each scrollbar and the rectangles of both
  knobs;
- the drag flags and the last pointer position;
- the magnification index and the name-display mode;
- the button lists.

Its methods update that state in place, and the model is a Dafny class,
`Starmap.StarmapRenderer`, with those fields and methods:
- `UpdateRegions` lays the screen out for a window size, and `Relayout` is the
  resize test at the start of `paint()`.
- `Zoom` caps the factor at 1 and fits each scrollbar's range to the zoomed map.
- `Scroll` clamps both values and places the knobs, and `ScrollByPixelRel`
  converts a drag in screen pixels into scrollbar pixels.
- `DoMagnify` and the Ctrl-wheel branch step through the magnification table.
  `DoNameChange` cycles the four name modes.
- The five mouse handlers dispatch presses, drags, releases, clicks and wheel
  notches.

Every public method keeps the class invariant `Valid()`: the list lengths,
the index and mode ranges, a zoom in (0, 1], scroll values clamped into their
ranges, and (`RangesFit`) each range fitted to its track so that the smallest
knob still fits beside it. A new layout breaks the fit until `Refit` zooms
again, so the layout methods keep only the weaker `Settled()`.

Each method is proved against pure definitions in the other modules, and the
properties of those definitions are proved as lemmas:
- `Geometry`: points, rectangles, `Rectangle.contains`, `Math.max` and
  `Math.min`.
- `Gfx`: the image sizes the layout depends on.
- `ViewTransform`: scroll clamping, the scrollbar range policy of `zoom()`, the
  knob rectangles, the drag conversion, the magnification table and the name
  modes.
- `Buttons`: a button as a value, first-match dispatch over a button list,
  press, toggle, click and release, and the stacking of the satellite buttons.
- `Layout`: every rectangle `updateRegions()` computes, as a function of the
  window size.

Java's `float` arithmetic is modelled on exact reals. Java's `(int)` cast is
`TruncToInt` (truncation toward zero), and Java's `%` is `JavaRem`.

Behaviour of the code worth noting:
- Pressing does not clear the other drag flags, so the drag modes are not
  mutually exclusive. `mouseDragged()` gives the map drag precedence, then
  the vertical knob, then the horizontal knob.
- `scrollByPixelRel()` divides by the zoom. A drag of `delta` screen pixels
  therefore moves the drawn map by `delta / zoom` screen pixels, which is
  exactly `delta` only at zoom 1 (`DragMovesMapByDeltaOverZoom`).
- `updateScrollKnobs()` gives the vertical knob a minimum height of the
  vertical top cap plus the horizontal right cap. `zoom()` reserves the two
  vertical caps instead, so the knob can overrun its track
  (`VerticalKnobOverrunsTrack`).
- `mouseReleased()` brings the plain buttons and the magnify button up, but
  leaves the toggle buttons as they are.
- A toggle button flips and runs its action when pressed, not when clicked.

## Model

| member | source | states |
|---|---|---|
| Geometry.Max | open-ig/src/hu/openig/gfx/StarmapRenderer.java:594 | `Math.max`: the result is one of the arguments and at least both |
| Geometry.Min | open-ig/src/hu/openig/gfx/StarmapRenderer.java:654 | `Math.min`: the result is one of the arguments and at most both |
| Geometry.Contains | open-ig/src/hu/openig/gfx/StarmapRenderer.java:718 | `Rectangle.contains`: a point is contained exactly when it lies in the half-open box from the top-left corner to the far edges, and only a rectangle with positive sides contains anything |
| ViewTransform.TruncToInt | open-ig/src/hu/openig/gfx/StarmapRenderer.java:619 | Java's `(int)` on a floating value truncates toward zero: within 1 below a non-negative value, within 1 above a negative one |
| ViewTransform.JavaRem | open-ig/src/hu/openig/gfx/StarmapRenderer.java:836 | Java's `%` takes the sign of the dividend, stays within the divisor and differs from the Euclidean remainder by 0 or the divisor, which fixes its value |
| ViewTransform.Clamp | open-ig/src/hu/openig/gfx/StarmapRenderer.java:654-655 | scroll's clamp gives a value in [0, max], 0 when max is negative, the value itself when it is in range, and max above the range |
| ViewTransform.ClampIdempotent | open-ig/src/hu/openig/gfx/StarmapRenderer.java:653-661 | scrolling to the position scroll just produced changes nothing |
| ViewTransform.ZoomedSize | open-ig/src/hu/openig/gfx/StarmapRenderer.java:619 | a zoom in [0, 1] never makes the map larger than it is, nor negative |
| ViewTransform.ZoomedSizeAtTableFactor | open-ig/src/hu/openig/gfx/StarmapRenderer.java:828 | at a table zoom `factor / 30` the zoomed size is the integer quotient `size * factor / 30` |
| ViewTransform.AxisRange | open-ig/src/hu/openig/gfx/StarmapRenderer.java:619-648 | the range policy of zoom: the maximum never exceeds the travel or the excess; it equals the excess, with factor 1, while the excess is less than the travel, and the travel otherwise |
| ViewTransform.AxisRangeReachesMapEdge | open-ig/src/hu/openig/gfx/StarmapRenderer.java:627-634 | when the track has travel, max times factor is exactly the excess (a scrollbar at its end shows the map's far edge), and the factor is at least 1 |
| ViewTransform.HorizontalKnob | open-ig/src/hu/openig/gfx/StarmapRenderer.java:594-599 | the horizontal knob starts `value` pixels into the track and covers what the range leaves of it, never less than its two end caps |
| ViewTransform.VerticalKnob | open-ig/src/hu/openig/gfx/StarmapRenderer.java:601-606 | the vertical knob starts `value` pixels down the track; its floor is the top cap plus the horizontal right cap |
| ViewTransform.HorizontalKnobWithinTrack | open-ig/src/hu/openig/gfx/StarmapRenderer.java:594-599 | for every range zoom can produce and every clamped value, the horizontal knob lies inside its track and touches the far end at the maximum |
| ViewTransform.VerticalKnobWithinTrack | open-ig/src/hu/openig/gfx/StarmapRenderer.java:601-606 | the vertical knob stays inside its track whenever the horizontal right cap is no taller than the vertical bottom cap |
| ViewTransform.VerticalKnobOverrunsTrack | open-ig/src/hu/openig/gfx/StarmapRenderer.java:601-606 | otherwise, scrolled to the bottom of an overhanging map, the vertical knob reaches past its track by the difference of the cap heights |
| ViewTransform.ScrollTarget | open-ig/src/hu/openig/gfx/StarmapRenderer.java:664-665 | the value asked for is `value + delta / zoom / factor` truncated toward zero; exactly `value + delta` at zoom and factor 1, and `value` for no movement |
| ViewTransform.DragMovesMapByDeltaOverZoom | open-ig/src/hu/openig/gfx/StarmapRenderer.java:232-242 | the scroll value scrollByPixelRel asks for moves the drawn map by `delta / zoom` screen pixels |
| ViewTransform.MagnifyZoom | open-ig/src/hu/openig/gfx/StarmapRenderer.java:113 | every table zoom is in (0, 1], and the top entry is 1 |
| ViewTransform.StepMagnify | open-ig/src/hu/openig/gfx/StarmapRenderer.java:825-834 | a magnify step stays in the table and moves by at most one; inward below the top it moves up one, outward above the bottom it moves down one, and when it moves it magnifies exactly when it goes inward |
| ViewTransform.StepMagnifyAtBounds | open-ig/src/hu/openig/gfx/StarmapRenderer.java:826-833 | a step past either end of the table does not move |
| ViewTransform.StepMagnifyRoundTrip | open-ig/src/hu/openig/gfx/StarmapRenderer.java:825-834 | a step in then out (below the top), or out then in (above the bottom), restores the index |
| ViewTransform.WheelStep | open-ig/src/hu/openig/gfx/StarmapRenderer.java:843-852 | the Ctrl-wheel step is the magnify step inward for a negative rotation, outward for a positive one, and no move for none |
| ViewTransform.NextNameMode | open-ig/src/hu/openig/gfx/StarmapRenderer.java:835-838 | the next name mode is the successor in 0..3, wrapping from 3 to 0 |
| ViewTransform.NameModeCycle | open-ig/src/hu/openig/gfx/StarmapRenderer.java:835-838 | four name changes bring the mode back to where it was |
| Buttons.Test | open-ig/src/hu/openig/gfx/StarmapRenderer.java:739 | a button's hit test passes exactly for a visible, enabled button whose area holds the point |
| Buttons.FirstHit | open-ig/src/hu/openig/gfx/StarmapRenderer.java:739-745 | first-match dispatch: the index found passes its test and none before it does; there is none exactly when no button passes |
| Buttons.FindFirstHit | open-ig/src/hu/openig/gfx/StarmapRenderer.java:739-745 | the for-break loop over a button list finds the first hit |
| Buttons.FirstHitSameTargets | open-ig/src/hu/openig/gfx/StarmapRenderer.java:698-703 | pressing and clicking do not change which button a point hits |
| Buttons.PressFirstHit | open-ig/src/hu/openig/gfx/StarmapRenderer.java:739-745 | a press puts down exactly the first button hit and changes no area, flag or click count |
| Buttons.ToggleFirstHit | open-ig/src/hu/openig/gfx/StarmapRenderer.java:746-753 | a press flips and clicks exactly the first toggle button hit; every other toggle button is unchanged |
| Buttons.ToggleTwiceRestoresDown | open-ig/src/hu/openig/gfx/StarmapRenderer.java:746-753 | two presses at the same point restore every down flag and click the hit button twice |
| Buttons.ClickFirstHit | open-ig/src/hu/openig/gfx/StarmapRenderer.java:697-704 | a left click clicks exactly the first plain button hit and changes nothing else |
| Buttons.TotalClicksAdd | open-ig/src/hu/openig/gfx/StarmapRenderer.java:700 | one click on one button adds one to the clicks of the list |
| Buttons.ClickRunsAtMostOneAction | open-ig/src/hu/openig/gfx/StarmapRenderer.java:697-704 | a click runs exactly one action when some button is hit and none otherwise |
| Buttons.ReleaseAll | open-ig/src/hu/openig/gfx/StarmapRenderer.java:772-775 | a release brings every button of the list up and changes nothing else |
| Buttons.ReleaseAllIdempotent | open-ig/src/hu/openig/gfx/StarmapRenderer.java:766-781 | after a release no button is down, and a second release changes nothing |
| Buttons.SetRects | open-ig/src/hu/openig/gfx/StarmapRenderer.java:455-555 | the layout gives the first buttons their new areas in list order and leaves the rest alone |
| Buttons.StackVisibleAt | open-ig/src/hu/openig/gfx/StarmapRenderer.java:560-591 | a visible satellite button goes to the slot counted by the visible buttons before it; a hidden one keeps its area |
| Buttons.StackedButtonsDisjoint | open-ig/src/hu/openig/gfx/StarmapRenderer.java:560-591 | two visible satellite buttons never overlap |
| Buttons.CountVisibleGrows | open-ig/src/hu/openig/gfx/StarmapRenderer.java:563-589 | every visible button before a later one moves that one a slot further down |
| Layout.LayoutClosesUp | open-ig/src/hu/openig/gfx/StarmapRenderer.java:392-558 | the computed layout closes up: the viewport meets the right and bottom panels, the frame images and fillers join, the button columns stack without gaps, the magnify button sits between the equipment and info buttons, and the toggle grid and ship command buttons are evenly spaced |
| Layout.ResizeMovesCornerPanels | open-ig/src/hu/openig/gfx/StarmapRenderer.java:398-555 | enlarging the window stretches the viewport and scrollbar tracks by the same amounts and carries the bottom-right panels and buttons with the corner |
| Starmap.PressedDragMode | open-ig/src/hu/openig/gfx/StarmapRenderer.java:718-732 | press priority: a right press in the viewport drags the map; otherwise a left press on the horizontal knob drags it; otherwise a left press on the vertical knob drags that (each an if-and-only-if) |
| Starmap.MagnifyHit | open-ig/src/hu/openig/gfx/StarmapRenderer.java:734 | the magnify button is hit exactly when it is enabled and under the point, whether visible or not, so the ordinary hit test implies it |
| Starmap.WheelDelta | open-ig/src/hu/openig/gfx/StarmapRenderer.java:856-867 | a wheel notch scrolls by 20 pixels, backwards exactly for a negative rotation |
| Starmap.StarmapRenderer.constructor | open-ig/src/hu/openig/gfx/StarmapRenderer.java:142-153 | a new screen has every region and both knobs empty, no scroll and scroll factors 0, zoom 1, the top magnification index, no names shown, no drag, and every button new, with the buttons created in list order as initActions adds them (lines 783-824) |
| Starmap.StarmapRenderer.Relayout | open-ig/src/hu/openig/gfx/StarmapRenderer.java:161-168 | at an unchanged size nothing changes; at a new size the regions are recomputed, every button gets its new area with its flags and clicks kept and the satellites stacked, the screen is re-zoomed at its own factor and the old scroll position is clamped into the new ranges |
| Starmap.StarmapRenderer.Resize | open-ig/src/hu/openig/gfx/StarmapRenderer.java:162-167 | the size is remembered, the regions and button areas are those of the new layout (flags and clicks kept), and zoom and scroll are refitted to it |
| Starmap.StarmapRenderer.Refit | open-ig/src/hu/openig/gfx/StarmapRenderer.java:166-167 | zooming again at the current factor fits the ranges to the current layout, which restores the fit of every range to its track that a new layout breaks, and keeps the scroll position where it still fits |
| Starmap.StarmapRenderer.UpdateRegions | open-ig/src/hu/openig/gfx/StarmapRenderer.java:392-558 | every region is the computed layout's, every button has its new area, the satellites are stacked, and the zoom and scroll values are unchanged |
| Starmap.StarmapRenderer.ApplyLayout | open-ig/src/hu/openig/gfx/StarmapRenderer.java:398-557 | the assignments of updateRegions put the layout into the regions and the buttons, and the satellite stack comes last |
| Starmap.StarmapRenderer.PlaceButtons | open-ig/src/hu/openig/gfx/StarmapRenderer.java:455-555 | each plain and toggle button and the magnify button get their areas; flags and counts are unchanged |
| Starmap.StarmapRenderer.UpdateSatellites | open-ig/src/hu/openig/gfx/StarmapRenderer.java:560-591 | the four satellite buttons are stacked beside the colonize button (91 to its left) and every other button is unchanged |
| Starmap.StarmapRenderer.SatellitesStacked | open-ig/src/hu/openig/gfx/StarmapRenderer.java:563-590 | the four guarded updates together are the stacking of the satellite part of the list |
| Starmap.StarmapRenderer.UpdateScrollKnobs | open-ig/src/hu/openig/gfx/StarmapRenderer.java:593-609 | both knobs are the knob rectangles for the current tracks, values and ranges |
| Starmap.StarmapRenderer.Zoom | open-ig/src/hu/openig/gfx/StarmapRenderer.java:611-651 | the factor is capped at 1, both ranges follow the range policy for the zoomed map, the old scroll values are clamped into them, and each range leaves room for the minimum knob |
| Starmap.StarmapRenderer.FitScrollbar | open-ig/src/hu/openig/gfx/StarmapRenderer.java:622-634 | the branches of one scrollbar's correction compute the range policy |
| Starmap.StarmapRenderer.Scroll | open-ig/src/hu/openig/gfx/StarmapRenderer.java:653-661 | both values are clamped into their ranges and the knobs are placed for them; on a track that holds the smallest knob, the horizontal knob lies inside its track, and so does the vertical one while the horizontal right cap is no taller than the vertical bottom cap; nothing else changes |
| Starmap.StarmapRenderer.ScrollByPixelRel | open-ig/src/hu/openig/gfx/StarmapRenderer.java:663-666 | the screen is scrolled to the converted target on each axis, and nothing else changes |
| Starmap.StarmapRenderer.DoMagnify | open-ig/src/hu/openig/gfx/StarmapRenderer.java:825-834 | the index takes one step in the pressed direction; if it moved, the view is zoomed to the new table entry; at the end of the table the view is unchanged |
| Starmap.StarmapRenderer.DoNameChange | open-ig/src/hu/openig/gfx/StarmapRenderer.java:835-838 | the name mode advances by one in the 4-cycle and the view is unchanged |
| Starmap.StarmapRenderer.MousePressed | open-ig/src/hu/openig/gfx/StarmapRenderer.java:716-761 | at most one drag starts, by press priority, and the pointer is remembered; otherwise a left press pushes the magnify button (zoom in) or presses the first plain button hit and toggles the first toggle hit, and a right press on the magnify button pushes it to zoom out |
| Starmap.StarmapRenderer.StartDrag | open-ig/src/hu/openig/gfx/StarmapRenderer.java:719-731 | a drag press remembers the pointer and switches on its mode only |
| Starmap.StarmapRenderer.PushMagnify | open-ig/src/hu/openig/gfx/StarmapRenderer.java:735-737 | pushing the magnify button puts it down and records the direction |
| Starmap.StarmapRenderer.PressLists | open-ig/src/hu/openig/gfx/StarmapRenderer.java:738-754 | a left press off the magnify button presses the first plain button hit and toggles the first toggle button hit |
| Starmap.StarmapRenderer.MouseDragged | open-ig/src/hu/openig/gfx/StarmapRenderer.java:671-685 | the pointer is remembered; the map drag scrolls by the converted travel, otherwise a knob moves by the raw travel and follows the pointer while in range, and with no drag nothing moves |
| Starmap.StarmapRenderer.FollowDrag | open-ig/src/hu/openig/gfx/StarmapRenderer.java:676-684 | the drag branches, in the order map, vertical knob, horizontal knob |
| Starmap.StarmapRenderer.MouseReleased | open-ig/src/hu/openig/gfx/StarmapRenderer.java:766-781 | every drag ends, every plain button and the magnify button come up, the toggles are kept, and a repaint is requested exactly when some button was down |
| Starmap.StarmapRenderer.MouseClicked | open-ig/src/hu/openig/gfx/StarmapRenderer.java:691-706 | a left or right click on the enabled magnify button clicks it and magnifies one step; otherwise a left click clicks the first plain button hit (the name button changes the name mode), and the view is unchanged |
| Starmap.StarmapRenderer.ClickLists | open-ig/src/hu/openig/gfx/StarmapRenderer.java:697-704 | the first plain button hit is clicked, and the name mode advances exactly when that is the name button |
| Starmap.StarmapRenderer.MouseWheelMoved | open-ig/src/hu/openig/gfx/StarmapRenderer.java:840-870 | outside the viewport nothing changes; with Ctrl the magnification steps in for an upward notch and out for a downward one; otherwise one notch scrolls 20 pixels, horizontally with Shift and vertically without, and zoom and ranges are unchanged |

## Left out

- paint() draws the screen and is not modelled: the images, the scrollbar fills, the button image lookup and the centring of a small map (lines 155-390). Only its resize test is modelled, as `Relayout`.
- Btn.java is not part of this model. A button is a value with an area, the visible, disabled and down flags, and a click count. `test()` is taken to be "visible, enabled and containing the point", and a new button to be visible, enabled and up. `click()` is counted, and runs the button's action: doNameChange for the name button, doMagnify for the magnify button.
- repaint() requests are not modelled; only mouseReleased's decision to repaint is, as the result of `MouseReleased`.
- cgfx.updateRegions and infoBarRect belong to the shared info bars (CommonGFX) and are not modelled. The info-bar image heights enter the layout as `ImageSizes` parameters.
- The image sizes are parameters (`Gfx.ImageSizes`) and are assumed positive. The image loaders are not part of this model.
- `float` is modelled as exact `real`. Rounding at the edges of a table zoom and the Infinity or NaN of a zero travel are not modelled. In the zero-travel case the range is 0, so every scroll clamps to 0 and the factor is never observed. Nor is the division by a zero scroll factor in scrollByPixelRel(), which Java evaluates to Infinity or NaN: a factor is 0 before the first zoom and after a zoom that leaves a negative travel with no excess, and `ScrollTarget` then passes the value on unchanged. The outcome is the same, because the range is then at most 0 and scroll() clamps to 0.
- Rectangle arithmetic is on unbounded integers. 32-bit overflow needs windows more than 2^31 pixels wide and is not modelled.
- Starmap.StarmapRenderer.Zoom: requires a positive factor. The source takes any float, but every caller passes the current factor or a table entry, and both are positive.
- mouseMoved, mouseEntered and mouseExited have empty bodies and are not modelled.
- showSatellites and showShipControls affect drawing only and are not modelled.
- The named button fields (btnColony, btnName, …) alias entries of the button lists. They are modelled as positions in those lists (`BtnColony`, `BtnName`, …).
- Several methods are split into helpers that the source does not have: `Resize` and `Refit` in `Relayout`, `ApplyLayout` and `PlaceButtons` in `UpdateRegions`, `StartDrag`, `PushMagnify` and `PressLists` in `MousePressed`, `FollowDrag` in `MouseDragged`, and `ClickLists` in `MouseClicked`. Each helper performs the statements of the source it cites, in the same order.
