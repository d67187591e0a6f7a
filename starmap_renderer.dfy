/** The map screen widget (StarmapRenderer) without its drawing: the view
    state it keeps in fields and the methods that update that state in
    place -- layout, zoom, scrolling, the magnification and name-mode
    buttons, and the mouse handlers. */
module Starmap {
  import opened Geometry
  import opened Gfx
  import opened ViewTransform
  import opened Buttons
  import opened Layout

  /** MouseEvent.getButton(): NOBUTTON, BUTTON1 (left), BUTTON2, BUTTON3 (right). */
  datatype MouseButton = NoButton | Button1 | Button2 | Button3

  /** The three drag modes a press can start. */
  datatype DragMode = MapDrag | HorizontalKnobDrag | VerticalKnobDrag

  /** Positions in the plain button list, in the order initActions() adds them. */
  const BtnColony: nat := 0
  const BtnColonyPrev: nat := 1
  const BtnColonyNext: nat := 2
  const BtnEquipment: nat := 3
  const BtnEquipmentPrev: nat := 4
  const BtnEquipmentNext: nat := 5
  const BtnInfo: nat := 6
  const BtnBridge: nat := 7
  const BtnColonize: nat := 8
  const BtnName: nat := 9
  const BtnSatellite: nat := 10   // then SpySat1, SpySat2, Hubble2
  const ButtonCount: nat := 14

  /** Positions in the toggle button list. */
  const BtnFleets: nat := 0
  const BtnGrids: nat := 1
  const BtnRadars: nat := 2
  const BtnStars: nat := 3
  const BtnMove: nat := 4
  const BtnAttack: nat := 5
  const BtnStop: nat := 6
  const ToggleCount: nat := 7

  /** The satellite buttons start this far left of the colonize button. */
  const SatelliteOffset: int := 91

  /** SCROLL_AMOUNT: pixels per wheel notch. */
  const ScrollAmount: int := 20

  /** Which drag, if any, a press starts: a right press in the map drags the
      map; otherwise a left press on the horizontal knob drags it, and
      otherwise a left press on the vertical knob drags that. */
  function PressedDragMode(button: MouseButton, p: Point, mapRect: Rect, hknob: Rect, vknob: Rect): (m: Option<DragMode>)
    ensures m == Some(MapDrag) <==> button == Button3 && Contains(mapRect, p)
    ensures m == Some(HorizontalKnobDrag) <==> button == Button1 && Contains(hknob, p)
    ensures m == Some(VerticalKnobDrag) <==>
      button == Button1 && !Contains(hknob, p) && Contains(vknob, p)
  {
    if button == Button3 && Contains(mapRect, p) then Some(MapDrag)
    else if button == Button1 && Contains(hknob, p) then Some(HorizontalKnobDrag)
    else if button == Button1 && Contains(vknob, p) then Some(VerticalKnobDrag)
    else None
  }

  /** The magnify button's own hit test in the mouse handlers: enabled and
      under the pointer (its visibility is not consulted). */
  function MagnifyHit(b: Btn, p: Point): (hit: bool)
    ensures hit ==> Contains(b.rect, p) && !b.disabled
    ensures !b.disabled && Contains(b.rect, p) ==> hit
    ensures Test(b, p) ==> hit
  {
    !b.disabled && Contains(b.rect, p)
  }

  /** The scroll step of one wheel notch. */
  function WheelDelta(rotation: int): (d: int)
    ensures d == ScrollAmount || d == -ScrollAmount
    ensures d < 0 <==> rotation < 0
  {
    if rotation < 0 then -ScrollAmount else ScrollAmount
  }

  class StarmapRenderer {
    /** The image sizes (StarmapGFX, CommonGFX). */
    const gfx: Sizes

    /** The rectangles updateRegions() computes: the scrollbar tracks, the
        panels, the map viewport, the frame images and the list areas. */
    var regions: Regions
    var hknobRect: Rect
    var vknobRect: Rect
    /** The size the layout was last computed for. */
    var lastWidth: int
    var lastHeight: int
    var vscrollMax: int
    var vscrollValue: int
    var hscrollMax: int
    var hscrollValue: int
    /** 1.0 is the map's own size, 0.5 half of it. */
    var zoomFactor: real
    var hscrollFactor: real
    var vscrollFactor: real
    var mapDragMode: bool
    var horizontalDragMode: bool
    var verticalDragMode: bool
    var lastMouseX: int
    var lastMouseY: int
    /** The plain buttons and the toggle buttons, in creation order. */
    var buttons: seq<Btn>
    var toggleButtons: seq<Btn>
    var btnMagnify: Btn
    /** true: the magnify button zooms in; false: out. */
    var magnifyDirection: bool
    var magnifyIndex: int
    /** 0 none, 1 colony, 2 fleets, 3 both. */
    var nameMode: int

    /** What every public method keeps. */
    ghost predicate Valid()
      reads this`buttons, this`toggleButtons, this`magnifyIndex, this`nameMode, this`zoomFactor,
            this`hscrollValue, this`hscrollMax, this`vscrollValue, this`vscrollMax, this`regions
    {
      && Settled()
      && RangesFit()
      && hscrollValue == Clamp(hscrollValue, hscrollMax)
      && vscrollValue == Clamp(vscrollValue, vscrollMax)
    }

    /** Valid() but for the scroll values, which zoom() may leave outside the
        new ranges until it scrolls again. */
    ghost predicate Settled()
      reads this`buttons, this`toggleButtons, this`magnifyIndex, this`nameMode, this`zoomFactor
    {
      && |buttons| == ButtonCount && |toggleButtons| == ToggleCount
      && 0 <= magnifyIndex < |MagnifyFactors|
      && 0 <= nameMode < NameModeCount
      && 0.0 < zoomFactor <= 1.0
    }

    /** The ranges zoom() fits to the current tracks: on an axis whose track
        holds the smallest knob, the range is at least 0 and leaves the knob
        room in the track. A new layout breaks this until the next zoom. */
    ghost predicate RangesFit()
      reads this`regions, this`hscrollMax, this`vscrollMax
    {
      && (regions.hscrollRect.width >= gfx.HorizontalMinKnob() ==>
            0 <= hscrollMax <= regions.hscrollRect.width - gfx.HorizontalMinKnob())
      && (regions.vscrollRect.height >= gfx.VerticalMinKnob() ==>
            0 <= vscrollMax <= regions.vscrollRect.height - gfx.VerticalMinKnob())
    }

    /** The scroll state scroll(x, y) leaves: both values clamped into their
        ranges and both knobs placed for them. */
    ghost predicate ScrolledTo(x: int, y: int)
      reads this`hscrollValue, this`vscrollValue, this`hscrollMax, this`vscrollMax,
            this`hknobRect, this`vknobRect, this`regions
    {
      && hscrollValue == Clamp(x, hscrollMax)
      && vscrollValue == Clamp(y, vscrollMax)
      && hknobRect == HorizontalKnob(regions.hscrollRect, hscrollValue, hscrollMax, gfx)
      && vknobRect == VerticalKnob(regions.vscrollRect, vscrollValue, vscrollMax, gfx)
    }

    /** The zoom state zoom(z) leaves: the factor capped at 1 and each
        scrollbar's range fitted to the zoomed map, the viewport and the
        track. */
    ghost predicate ZoomedTo(z: real)
      reads this`zoomFactor, this`hscrollMax, this`hscrollFactor, this`vscrollMax, this`vscrollFactor,
            this`regions
    {
      && zoomFactor == (if z > 1.0 then 1.0 else z)
      && ScrollRange(hscrollMax, hscrollFactor) ==
           AxisRange(ZoomedSize(gfx.fullMapWidth, zoomFactor), regions.mapRect.width, regions.hscrollRect.width, gfx.HorizontalMinKnob())
      && ScrollRange(vscrollMax, vscrollFactor) ==
           AxisRange(ZoomedSize(gfx.fullMapHeight, zoomFactor), regions.mapRect.height, regions.vscrollRect.height, gfx.VerticalMinKnob())
    }

    /** Neither the zoom, the ranges, the scroll values nor the knobs moved. */
    twostate predicate ViewKept()
      reads this`zoomFactor, this`hscrollMax, this`hscrollFactor, this`vscrollMax, this`vscrollFactor,
            this`hscrollValue, this`vscrollValue, this`hknobRect, this`vknobRect
    {
      && zoomFactor == old(zoomFactor)
      && hscrollMax == old(hscrollMax) && hscrollFactor == old(hscrollFactor)
      && vscrollMax == old(vscrollMax) && vscrollFactor == old(vscrollFactor)
      && hscrollValue == old(hscrollValue) && vscrollValue == old(vscrollValue)
      && hknobRect == old(hknobRect) && vknobRect == old(vknobRect)
    }

    /** The effect of moving the magnification index to `index`: if it moved,
        the view is zoomed to the table entry and the old scroll position is
        clamped into the new ranges; if not, the view is as it was. */
    twostate predicate MagnifiedTo(index: int)
      reads this`magnifyIndex, this`zoomFactor, this`hscrollMax, this`hscrollFactor, this`vscrollMax,
            this`vscrollFactor, this`hscrollValue, this`vscrollValue, this`hknobRect, this`vknobRect,
            this`regions
    {
      && magnifyIndex == index
      && (index != old(magnifyIndex) ==>
            && 0 <= index < |MagnifyFactors|
            && ZoomedTo(MagnifyZoom(index))
            && ScrolledTo(old(hscrollValue), old(vscrollValue)))
      && (index == old(magnifyIndex) ==> ViewKept())
    }

    /** The button areas updateRegions() leaves for layout L: plain and toggle
        buttons moved to their areas, the satellite buttons stacked beside the
        colonize button, every flag and count as it was. */
    twostate predicate ButtonsLaidOut(L: Layout)
      reads this`buttons, this`toggleButtons, this`btnMagnify
    {
      && |old(buttons)| == ButtonCount && |old(toggleButtons)| == ToggleCount
      && buttons == SetRects(old(buttons), PlainButtonRects(L))[..BtnSatellite]
                    + StackVisible(old(buttons)[BtnSatellite..], L.colonize.x - SatelliteOffset, L.colonize.y)
      && toggleButtons == SetRects(old(toggleButtons), ToggleButtonRects(L))
      && btnMagnify == old(btnMagnify).(rect := L.magnify)
    }

    /** The constructor with initActions(): every rectangle empty, no scroll,
        full size, the widest magnification, no names shown, no drag, and the
        buttons created in list order, up and never clicked. */
    constructor (g: Sizes)
      ensures Valid() && gfx == g
      ensures hscrollValue == 0 && vscrollValue == 0 && hscrollMax == 0 && vscrollMax == 0
      ensures zoomFactor == 1.0 && magnifyIndex == TopMagnifyIndex && nameMode == 0
      ensures !mapDragMode && !horizontalDragMode && !verticalDragMode && !magnifyDirection
      ensures lastWidth == -1 && lastHeight == -1
      ensures forall i :: 0 <= i < ButtonCount ==> buttons[i] == NewBtn
      ensures forall i :: 0 <= i < ToggleCount ==> toggleButtons[i] == NewBtn
      ensures btnMagnify == NewBtn
      ensures regions == Regions(EmptyRect, EmptyRect, EmptyRect, EmptyRect, EmptyRect, EmptyRect, EmptyRect,
                                 EmptyRect, EmptyRect, EmptyRect, EmptyRect, EmptyRect, EmptyRect)
      ensures hknobRect == EmptyRect && vknobRect == EmptyRect
      ensures hscrollFactor == 0.0 && vscrollFactor == 0.0
    {
      gfx := g;
      var e := EmptyRect;
      regions := Regions(e, e, e, e, e, e, e, e, e, e, e, e, e);
      hknobRect, vknobRect := e, e;
      lastWidth, lastHeight := -1, -1;
      vscrollMax, vscrollValue, hscrollMax, hscrollValue := 0, 0, 0, 0;
      zoomFactor := 1.0;
      hscrollFactor, vscrollFactor := 0.0, 0.0;
      mapDragMode, horizontalDragMode, verticalDragMode := false, false, false;
      lastMouseX, lastMouseY := 0, 0;
      magnifyDirection := false;
      magnifyIndex := |MagnifyFactors| - 1;
      nameMode := 0;
      // initActions()
      buttons := seq(ButtonCount, _ => NewBtn);
      btnMagnify := NewBtn;
      toggleButtons := seq(ToggleCount, _ => NewBtn);
      new;
      buttons := buttons[BtnSatellite := buttons[BtnSatellite].(visible := true)];
      buttons := buttons[BtnSatellite + 1 := buttons[BtnSatellite + 1].(visible := true)];
      buttons := buttons[BtnSatellite + 2 := buttons[BtnSatellite + 2].(visible := true)];
      buttons := buttons[BtnSatellite + 3 := buttons[BtnSatellite + 3].(visible := true)];
    }

    // -------------------------------------------------------------------
    // Layout

    /** The start of paint(): when the component's size differs from the one
        last laid out, recompute the regions, re-zoom so the scrollbars fit
        the new viewport, and place the knobs. */
    method Relayout(w: int, h: int)
      requires Valid()
      modifies this`lastWidth, this`lastHeight,
               this`regions, this`buttons, this`toggleButtons, this`btnMagnify,
               this`zoomFactor, this`hscrollMax, this`hscrollFactor, this`vscrollMax, this`vscrollFactor,
               this`hscrollValue, this`vscrollValue, this`hknobRect, this`vknobRect
      ensures Valid()
      ensures w == old(lastWidth) && h == old(lastHeight) ==> unchanged(this)
      ensures w != old(lastWidth) || h != old(lastHeight) ==>
        && lastWidth == w && lastHeight == h
        && regions == ComputeLayout(w, h, gfx).regions
        && ButtonsLaidOut(ComputeLayout(w, h, gfx))
        && ZoomedTo(old(zoomFactor))
        && ScrolledTo(old(hscrollValue), old(vscrollValue))
    {
      if w != lastWidth || h != lastHeight {
        Resize(w, h);
      }
    }

    /** The body of that test: remember the size, lay the screen out for it,
        re-zoom at the current factor and place the knobs. */
    method Resize(w: int, h: int)
      requires Valid()
      modifies this`lastWidth, this`lastHeight,
               this`regions, this`buttons, this`toggleButtons, this`btnMagnify,
               this`zoomFactor, this`hscrollMax, this`hscrollFactor, this`vscrollMax, this`vscrollFactor,
               this`hscrollValue, this`vscrollValue, this`hknobRect, this`vknobRect
      ensures Valid()
      ensures lastWidth == w && lastHeight == h
      ensures regions == ComputeLayout(w, h, gfx).regions
      ensures ButtonsLaidOut(ComputeLayout(w, h, gfx))
      ensures ZoomedTo(old(zoomFactor))
      ensures ScrolledTo(old(hscrollValue), old(vscrollValue))
    {
      lastWidth := w;
      lastHeight := h;
      UpdateRegions(w, h);
      Refit();
    }

    /** After a new layout: zoom again at the current factor, which fits the
        scroll ranges to the new viewport and tracks, and place the knobs. */
    method Refit()
      requires Settled()
      modifies this`zoomFactor, this`hscrollMax, this`hscrollFactor, this`vscrollMax, this`vscrollFactor,
               this`hscrollValue, this`vscrollValue, this`hknobRect, this`vknobRect
      ensures Valid()
      ensures ZoomedTo(old(zoomFactor))
      ensures ScrolledTo(old(hscrollValue), old(vscrollValue))
      ensures regions == old(regions)
      ensures lastWidth == old(lastWidth) && lastHeight == old(lastHeight)
    {
      Zoom(zoomFactor);
      UpdateScrollKnobs();
    }

    /** updateRegions(): lay out every region and button for a w x h
        component. */
    method UpdateRegions(w: int, h: int)
      requires Valid()
      modifies this`regions, this`buttons, this`toggleButtons, this`btnMagnify
      ensures Settled()
      ensures regions == ComputeLayout(w, h, gfx).regions
      ensures ButtonsLaidOut(ComputeLayout(w, h, gfx))
      ensures zoomFactor == old(zoomFactor) && hscrollValue == old(hscrollValue) && vscrollValue == old(vscrollValue)
      ensures lastWidth == old(lastWidth) && lastHeight == old(lastHeight)
    {
      ApplyLayout(ComputeLayout(w, h, gfx));
    }

    /** The assignments of updateRegions(): every region and button area
        from L, then the satellite buttons stacked beside the colonize
        button. */
    method ApplyLayout(L: Layout)
      requires Valid()
      modifies this`regions,
               this`buttons, this`toggleButtons, this`btnMagnify
      ensures Settled()
      ensures regions == L.regions
      ensures ButtonsLaidOut(L)
      ensures zoomFactor == old(zoomFactor) && hscrollValue == old(hscrollValue) && vscrollValue == old(vscrollValue)
      ensures lastWidth == old(lastWidth) && lastHeight == old(lastHeight)
    {
      regions := L.regions;
      PlaceButtons(L);
      assert buttons[BtnSatellite..] == old(buttons)[BtnSatellite..];
      UpdateSatellites();
    }

    /** The button areas of updateRegions(), in list order; flags and counts
        are left alone. */
    method PlaceButtons(L: Layout)
      requires |buttons| == ButtonCount && |toggleButtons| == ToggleCount
      modifies this`buttons, this`toggleButtons, this`btnMagnify
      ensures buttons == SetRects(old(buttons), PlainButtonRects(L))
      ensures toggleButtons == SetRects(old(toggleButtons), ToggleButtonRects(L))
      ensures btnMagnify == old(btnMagnify).(rect := L.magnify)
    {
      buttons := SetRects(buttons, PlainButtonRects(L));
      toggleButtons := SetRects(toggleButtons, ToggleButtonRects(L));
      btnMagnify := btnMagnify.(rect := L.magnify);
    }

    /** updateSatellites(): stack the visible satellite buttons downwards from
        beside the colonize button, one step apart. */
    method UpdateSatellites()
      requires Settled()
      modifies this`buttons
      ensures Settled()
      ensures buttons == old(buttons)[..BtnSatellite]
        + StackVisible(old(buttons)[BtnSatellite..],
                       old(buttons)[BtnColonize].rect.x - SatelliteOffset, old(buttons)[BtnColonize].rect.y)
    {
      var x := buttons[BtnColonize].rect.x - SatelliteOffset;
      var y := buttons[BtnColonize].rect.y;
      ghost var y0 := y;
      ghost var sats := buttons[BtnSatellite..];
      var bs := buttons;
      assert sats[..0] == [];
      if bs[BtnSatellite].visible {
        bs := bs[BtnSatellite := bs[BtnSatellite].(rect := Rect(x, y, SatelliteWidth, SatelliteHeight))];
        y := y + SatelliteStep;
      }
      assert SlotPlaced(bs[BtnSatellite], sats, 0, x, y0);
      CountVisiblePrefix(sats, 0);
      assert y == y0 + SatelliteStep * CountVisible(sats[..1]);
      if bs[BtnSatellite + 1].visible {
        bs := bs[BtnSatellite + 1 := bs[BtnSatellite + 1].(rect := Rect(x, y, SatelliteWidth, SatelliteHeight))];
        y := y + SatelliteStep;
      }
      assert SlotPlaced(bs[BtnSatellite + 1], sats, 1, x, y0);
      CountVisiblePrefix(sats, 1);
      assert y == y0 + SatelliteStep * CountVisible(sats[..2]);
      if bs[BtnSatellite + 2].visible {
        bs := bs[BtnSatellite + 2 := bs[BtnSatellite + 2].(rect := Rect(x, y, SatelliteWidth, SatelliteHeight))];
        y := y + SatelliteStep;
      }
      assert SlotPlaced(bs[BtnSatellite + 2], sats, 2, x, y0);
      CountVisiblePrefix(sats, 2);
      assert y == y0 + SatelliteStep * CountVisible(sats[..3]);
      if bs[BtnSatellite + 3].visible {
        bs := bs[BtnSatellite + 3 := bs[BtnSatellite + 3].(rect := Rect(x, y, SatelliteWidth, SatelliteHeight))];
      }
      assert SlotPlaced(bs[BtnSatellite + 3], sats, 3, x, y0);
      SatellitesStacked(buttons, bs, x, y0);
      buttons := bs;
    }

    /** Satellite i of `sats` is where stacking from (x, y) puts it. */
    static ghost predicate SlotPlaced(b: Btn, sats: seq<Btn>, i: nat, x: int, y: int)
      requires i < |sats|
    {
      b == if sats[i].visible
           then sats[i].(rect := Rect(x, y + SatelliteStep * CountVisible(sats[..i]), SatelliteWidth, SatelliteHeight))
           else sats[i]
    }

    /** The four updates of updateSatellites() are StackVisible on the
        satellite part of the list. */
    static lemma SatellitesStacked(before: seq<Btn>, after: seq<Btn>, x: int, y: int)
      requires |before| == |after| == ButtonCount
      requires after[..BtnSatellite] == before[..BtnSatellite]
      requires SlotPlaced(after[BtnSatellite], before[BtnSatellite..], 0, x, y)
      requires SlotPlaced(after[BtnSatellite + 1], before[BtnSatellite..], 1, x, y)
      requires SlotPlaced(after[BtnSatellite + 2], before[BtnSatellite..], 2, x, y)
      requires SlotPlaced(after[BtnSatellite + 3], before[BtnSatellite..], 3, x, y)
      ensures after == before[..BtnSatellite] + StackVisible(before[BtnSatellite..], x, y)
    {
      var sats := before[BtnSatellite..];
      var stacked := StackVisible(sats, x, y);
      forall i | 0 <= i < |sats|
        ensures stacked[i] == after[BtnSatellite + i]
      {
        StackVisibleAt(sats, x, y, i);
        assert i == 0 || i == 1 || i == 2 || i == 3;
      }
    }

    /** updateScrollKnobs(): place both knobs for the current values and
        ranges. */
    method UpdateScrollKnobs()
      modifies this`hknobRect, this`vknobRect
      ensures hknobRect == HorizontalKnob(regions.hscrollRect, hscrollValue, hscrollMax, gfx)
      ensures vknobRect == VerticalKnob(regions.vscrollRect, vscrollValue, vscrollMax, gfx)
    {
      var hextsize := Max(gfx.hscrollLeftWidth + gfx.hscrollRightWidth, regions.hscrollRect.width - hscrollMax);
      hknobRect := Rect(regions.hscrollRect.x + hscrollValue, regions.hscrollRect.y, hextsize, gfx.hscrollLeftHeight);
      var vextsize := Max(gfx.vscrollTopHeight + gfx.hscrollRightHeight, regions.vscrollRect.height - vscrollMax);
      vknobRect := Rect(regions.vscrollRect.x, regions.vscrollRect.y + vscrollValue, gfx.vscrollTopWidth, vextsize);
    }

    // -------------------------------------------------------------------
    // Zoom and scroll

    /** zoom(): cap the factor at 1, fit both scrollbars' ranges to the zoomed
        map, then scroll to the current position again so it falls inside
        them. */
    method Zoom(newZoomFactor: real)
      requires Settled()
      requires newZoomFactor > 0.0
      modifies this`zoomFactor, this`hscrollMax, this`hscrollFactor, this`vscrollMax, this`vscrollFactor,
               this`hscrollValue, this`vscrollValue, this`hknobRect, this`vknobRect
      ensures Valid()
      ensures ZoomedTo(newZoomFactor)
      ensures ScrolledTo(old(hscrollValue), old(vscrollValue))
      ensures hscrollMax <= regions.hscrollRect.width - gfx.HorizontalMinKnob()
      ensures vscrollMax <= regions.vscrollRect.height - gfx.VerticalMinKnob()
      ensures regions == old(regions) && magnifyIndex == old(magnifyIndex) && nameMode == old(nameMode)
      ensures buttons == old(buttons) && btnMagnify == old(btnMagnify)
    {
      var z := newZoomFactor;
      if z > 1.0 {
        z := 1.0;
      }
      zoomFactor := z;
      hscrollMax, hscrollFactor := FitScrollbar(ZoomedSize(gfx.fullMapWidth, z), regions.mapRect.width,
                                                regions.hscrollRect.width, gfx.hscrollLeftWidth + gfx.hscrollRightWidth);
      vscrollMax, vscrollFactor := FitScrollbar(ZoomedSize(gfx.fullMapHeight, z), regions.mapRect.height,
                                                regions.vscrollRect.height, gfx.vscrollTopHeight + gfx.vscrollBottomHeight);
      Scroll(hscrollValue, vscrollValue);
    }

    /** One scrollbar's part of zoom(): the range is the map's excess over
        the viewport while that fits the track beside the smallest knob, and
        otherwise the whole track, each pixel of which then scrolls the map
        by the factor. */
    static method FitScrollbar(zoomedSize: int, viewport: int, track: int, minKnob: int)
      returns (max: int, factor: real)
      ensures ScrollRange(max, factor) == AxisRange(zoomedSize, viewport, track, minKnob)
    {
      var maxScrollRegion := track - minKnob;
      var mapExcess := Max(zoomedSize - viewport, 0);
      if mapExcess < maxScrollRegion {
        max := Max(mapExcess, 0);
        factor := 1.0;
      } else {
        max := maxScrollRegion;
        factor := if maxScrollRegion == 0 then 1.0 else mapExcess as real / maxScrollRegion as real;
      }
    }

    /** scroll(): clamp both values into [0, max] (0 when max is negative)
        and place the knobs. */
    method Scroll(xValue: int, yValue: int)
      requires Settled() && RangesFit()
      modifies this`hscrollValue, this`vscrollValue, this`hknobRect, this`vknobRect
      ensures Valid()
      ensures ScrolledTo(xValue, yValue)
      ensures regions.hscrollRect.width >= gfx.HorizontalMinKnob() ==>
        regions.hscrollRect.x <= hknobRect.x && hknobRect.x + hknobRect.width <= regions.hscrollRect.x + regions.hscrollRect.width
      ensures regions.vscrollRect.height >= gfx.VerticalMinKnob() && gfx.hscrollRightHeight <= gfx.vscrollBottomHeight ==>
        regions.vscrollRect.y <= vknobRect.y && vknobRect.y + vknobRect.height <= regions.vscrollRect.y + regions.vscrollRect.height
      ensures buttons == old(buttons) && btnMagnify == old(btnMagnify)
      ensures magnifyIndex == old(magnifyIndex) && nameMode == old(nameMode)
      ensures zoomFactor == old(zoomFactor) && hscrollFactor == old(hscrollFactor) && vscrollFactor == old(vscrollFactor)
      ensures hscrollMax == old(hscrollMax) && vscrollMax == old(vscrollMax) && regions == old(regions)
      ensures lastMouseX == old(lastMouseX) && lastMouseY == old(lastMouseY)
      ensures mapDragMode == old(mapDragMode) && horizontalDragMode == old(horizontalDragMode)
      ensures verticalDragMode == old(verticalDragMode)
    {
      hscrollValue := Max(Min(xValue, hscrollMax), 0);
      vscrollValue := Max(Min(yValue, vscrollMax), 0);
      UpdateScrollKnobs();
    }

    /** scrollByPixelRel(): move the map by (dx, dy) screen pixels, converted
        to scrollbar pixels through the zoom and the scroll factors. */
    method ScrollByPixelRel(dx: int, dy: int)
      requires Valid()
      modifies this`hscrollValue, this`vscrollValue, this`hknobRect, this`vknobRect
      ensures Valid()
      ensures ScrolledTo(ScrollTarget(old(hscrollValue), dx, zoomFactor, hscrollFactor),
                         ScrollTarget(old(vscrollValue), dy, zoomFactor, vscrollFactor))
      ensures zoomFactor == old(zoomFactor) && hscrollFactor == old(hscrollFactor) && vscrollFactor == old(vscrollFactor)
      ensures hscrollMax == old(hscrollMax) && vscrollMax == old(vscrollMax) && regions == old(regions)
      ensures lastMouseX == old(lastMouseX) && lastMouseY == old(lastMouseY)
      ensures mapDragMode == old(mapDragMode) && horizontalDragMode == old(horizontalDragMode)
      ensures verticalDragMode == old(verticalDragMode)
    {
      Scroll(ScrollTarget(hscrollValue, dx, zoomFactor, hscrollFactor),
             ScrollTarget(vscrollValue, dy, zoomFactor, vscrollFactor));
    }

    // -------------------------------------------------------------------
    // Button actions

    /** doMagnify(): one step through the magnification table in the
        direction the last press chose, zooming to the new entry. */
    method DoMagnify()
      requires Valid()
      modifies this`magnifyIndex, this`zoomFactor, this`hscrollMax, this`hscrollFactor, this`vscrollMax,
               this`vscrollFactor, this`hscrollValue, this`vscrollValue, this`hknobRect, this`vknobRect
      ensures Valid()
      ensures MagnifiedTo(StepMagnify(old(magnifyIndex), magnifyDirection))
      ensures regions == old(regions) && nameMode == old(nameMode)
      ensures buttons == old(buttons) && btnMagnify == old(btnMagnify)
    {
      if magnifyDirection && magnifyIndex < |MagnifyFactors| - 1 {
        magnifyIndex := magnifyIndex + 1;
        Zoom(MagnifyZoom(magnifyIndex));
      } else if !magnifyDirection && magnifyIndex > 0 {
        magnifyIndex := magnifyIndex - 1;
        Zoom(MagnifyZoom(magnifyIndex));
      }
    }

    /** doNameChange(): the next of the four name modes. */
    method DoNameChange()
      requires Valid()
      modifies this`nameMode
      ensures Valid()
      ensures nameMode == NextNameMode(old(nameMode))
      ensures magnifyIndex == old(magnifyIndex) && ViewKept()
      ensures buttons == old(buttons) && btnMagnify == old(btnMagnify)
    {
      nameMode := JavaRem(nameMode + 1, NameModeCount);
    }

    // -------------------------------------------------------------------
    // Mouse handlers

    /** mousePressed(): start at most one drag, in the order map, horizontal
        knob, vertical knob (other modes already on stay on); failing that, a
        left press pushes the magnify button (zoom in) or else the first
        plain button hit and toggles the first toggle button hit, and a right
        press on the magnify button pushes it to zoom out. */
    method MousePressed(button: MouseButton, p: Point)
      requires Valid()
      modifies this`lastMouseX, this`lastMouseY, this`mapDragMode, this`horizontalDragMode,
               this`verticalDragMode, this`magnifyDirection, this`btnMagnify, this`buttons, this`toggleButtons
      ensures Valid()
      ensures var m := PressedDragMode(button, p, regions.mapRect, hknobRect, vknobRect);
        && mapDragMode == (old(mapDragMode) || m == Some(MapDrag))
        && horizontalDragMode == (old(horizontalDragMode) || m == Some(HorizontalKnobDrag))
        && verticalDragMode == (old(verticalDragMode) || m == Some(VerticalKnobDrag))
        && (m.Some? ==> lastMouseX == p.x && lastMouseY == p.y)
        && (m.None? ==> lastMouseX == old(lastMouseX) && lastMouseY == old(lastMouseY))
      ensures var m := PressedDragMode(button, p, regions.mapRect, hknobRect, vknobRect);
        var magnifyIn := m.None? && button == Button1 && MagnifyHit(old(btnMagnify), p);
        var listPress := m.None? && button == Button1 && !MagnifyHit(old(btnMagnify), p);
        var magnifyOut := m.None? && button == Button3 && Test(old(btnMagnify), p);
        && (magnifyIn || magnifyOut ==>
              && btnMagnify == old(btnMagnify).(down := true)
              && magnifyDirection == magnifyIn
              && buttons == old(buttons) && toggleButtons == old(toggleButtons))
        && (listPress ==>
              && buttons == PressFirstHit(old(buttons), p)
              && toggleButtons == ToggleFirstHit(old(toggleButtons), p)
              && btnMagnify == old(btnMagnify) && magnifyDirection == old(magnifyDirection))
        && (!magnifyIn && !magnifyOut && !listPress ==>
              && btnMagnify == old(btnMagnify) && magnifyDirection == old(magnifyDirection)
              && buttons == old(buttons) && toggleButtons == old(toggleButtons))
    {
      if button == Button3 && Contains(regions.mapRect, p) {
        StartDrag(MapDrag, p);
      } else if button == Button1 && Contains(hknobRect, p) {
        StartDrag(HorizontalKnobDrag, p);
      } else if button == Button1 && Contains(vknobRect, p) {
        StartDrag(VerticalKnobDrag, p);
      } else if button == Button1 {
        if !btnMagnify.disabled && Contains(btnMagnify.rect, p) {
          PushMagnify(true);
        } else {
          PressLists(p);
        }
      } else if button == Button3 && Test(btnMagnify, p) {
        PushMagnify(false);
      }
    }

    /** A press that starts a drag: remember the pointer and switch the mode
        on; the buttons are not touched. */
    method StartDrag(mode: DragMode, p: Point)
      modifies this`lastMouseX, this`lastMouseY, this`mapDragMode, this`horizontalDragMode, this`verticalDragMode
      ensures lastMouseX == p.x && lastMouseY == p.y
      ensures mapDragMode == (old(mapDragMode) || mode == MapDrag)
      ensures horizontalDragMode == (old(horizontalDragMode) || mode == HorizontalKnobDrag)
      ensures verticalDragMode == (old(verticalDragMode) || mode == VerticalKnobDrag)
      ensures buttons == old(buttons) && toggleButtons == old(toggleButtons)
      ensures btnMagnify == old(btnMagnify) && magnifyDirection == old(magnifyDirection)
    {
      lastMouseX := p.x;
      lastMouseY := p.y;
      match mode
      case MapDrag => mapDragMode := true;
      case HorizontalKnobDrag => horizontalDragMode := true;
      case VerticalKnobDrag => verticalDragMode := true;
    }

    /** A press on the magnify button: push it down and remember whether it
        will zoom in (left) or out (right) when clicked. */
    method PushMagnify(zoomIn: bool)
      modifies this`magnifyDirection, this`btnMagnify
      ensures btnMagnify == old(btnMagnify).(down := true) && magnifyDirection == zoomIn
      ensures buttons == old(buttons) && toggleButtons == old(toggleButtons)
      ensures lastMouseX == old(lastMouseX) && lastMouseY == old(lastMouseY)
      ensures mapDragMode == old(mapDragMode) && horizontalDragMode == old(horizontalDragMode)
      ensures verticalDragMode == old(verticalDragMode)
    {
      magnifyDirection := zoomIn;
      btnMagnify := btnMagnify.(down := true);
    }

    /** A left press off the magnify button: push the first plain button hit
        and toggle the first toggle button hit. */
    method PressLists(p: Point)
      modifies this`buttons, this`toggleButtons
      ensures buttons == PressFirstHit(old(buttons), p)
      ensures toggleButtons == ToggleFirstHit(old(toggleButtons), p)
      ensures btnMagnify == old(btnMagnify) && magnifyDirection == old(magnifyDirection)
      ensures lastMouseX == old(lastMouseX) && lastMouseY == old(lastMouseY)
      ensures mapDragMode == old(mapDragMode) && horizontalDragMode == old(horizontalDragMode)
      ensures verticalDragMode == old(verticalDragMode)
    {
      var bs := buttons;
      var hit := FindFirstHit(bs, p);
      if hit.Some? {
        var k := hit.value;
        bs := bs[k := bs[k].(down := true)];
      }
      var ts := toggleButtons;
      var toggled := FindFirstHit(ts, p);
      if toggled.Some? {
        var k := toggled.value;
        ts := ts[k := ts[k].(down := !ts[k].down, clicks := ts[k].clicks + 1)];
      }
      buttons := bs;
      toggleButtons := ts;
    }

    /** mouseDragged(): remember the pointer and move by the pointer's travel:
        the map (scaled) in map drag, else the vertical knob, else the
        horizontal knob (pixel for pixel). */
    method MouseDragged(p: Point)
      requires Valid()
      modifies this`lastMouseX, this`lastMouseY, this`hscrollValue, this`vscrollValue, this`hknobRect, this`vknobRect
      ensures Valid()
      ensures lastMouseX == p.x && lastMouseY == p.y
      ensures DraggedBy(old(lastMouseX) - p.x, old(lastMouseY) - p.y)
    {
      var dx := lastMouseX - p.x;
      var dy := lastMouseY - p.y;
      lastMouseX := p.x;
      lastMouseY := p.y;
      FollowDrag(dx, dy);
    }

    /** The scroll state after a drag by (dx, dy) in the current mode: the map
        moves by the travel over the zoom and the scroll factor; a knob moves
        pixel for pixel, and while it stays in range it follows the pointer
        exactly; with no drag on, nothing moves. */
    twostate predicate DraggedBy(dx: int, dy: int)
      reads this`mapDragMode, this`verticalDragMode, this`horizontalDragMode, this`zoomFactor,
            this`hscrollFactor, this`vscrollFactor, this`hscrollValue, this`vscrollValue,
            this`hscrollMax, this`vscrollMax, this`hknobRect, this`vknobRect, this`regions
      requires zoomFactor > 0.0
    {
      && (mapDragMode ==>
            ScrolledTo(ScrollTarget(old(hscrollValue), dx, zoomFactor, hscrollFactor),
                       ScrollTarget(old(vscrollValue), dy, zoomFactor, vscrollFactor)))
      && (!mapDragMode && verticalDragMode ==> ScrolledTo(old(hscrollValue), old(vscrollValue) - dy))
      && (!mapDragMode && !verticalDragMode && horizontalDragMode ==>
            ScrolledTo(old(hscrollValue) - dx, old(vscrollValue)))
      && (!mapDragMode && !verticalDragMode && !horizontalDragMode ==>
            hscrollValue == old(hscrollValue) && vscrollValue == old(vscrollValue) &&
            hknobRect == old(hknobRect) && vknobRect == old(vknobRect))
      // a knob follows the pointer exactly while it stays inside its range
      && (!mapDragMode && verticalDragMode && 0 <= old(vscrollValue) - dy <= vscrollMax ==>
            vknobRect.y == regions.vscrollRect.y + old(vscrollValue) - dy)
      && (!mapDragMode && !verticalDragMode && horizontalDragMode && 0 <= old(hscrollValue) - dx <= hscrollMax ==>
            hknobRect.x == regions.hscrollRect.x + old(hscrollValue) - dx)
    }

    /** The branches of mouseDragged(): scroll the map by the pointer's travel
        in map drag, else move the vertical knob, else the horizontal one. */
    method FollowDrag(dx: int, dy: int)
      requires Valid()
      modifies this`hscrollValue, this`vscrollValue, this`hknobRect, this`vknobRect
      ensures Valid()
      ensures DraggedBy(dx, dy)
    {
      if mapDragMode {
        ScrollByPixelRel(dx, dy);
      } else if verticalDragMode {
        Scroll(hscrollValue, vscrollValue - dy);
      } else if horizontalDragMode {
        Scroll(hscrollValue - dx, vscrollValue);
      }
    }

    /** mouseReleased(): end every drag and bring every plain button and the
        magnify button up; the toggle buttons keep their state. The result is
        whether a repaint is requested: exactly when some button was down. */
    method MouseReleased() returns (needRepaint: bool)
      requires Valid()
      modifies this`mapDragMode, this`verticalDragMode, this`horizontalDragMode, this`buttons, this`btnMagnify
      ensures Valid()
      ensures !mapDragMode && !verticalDragMode && !horizontalDragMode
      ensures buttons == ReleaseAll(old(buttons))
      ensures btnMagnify == old(btnMagnify).(down := false)
      ensures needRepaint == (AnyDown(old(buttons)) || old(btnMagnify).down)
    {
      mapDragMode := false;
      verticalDragMode := false;
      horizontalDragMode := false;
      needRepaint := false;
      var bs := buttons;
      var i := 0;
      while i < |bs|
        invariant 0 <= i <= |bs| == |buttons|
        invariant forall j :: 0 <= j < i ==> bs[j] == buttons[j].(down := false)
        invariant forall j :: i <= j < |bs| ==> bs[j] == buttons[j]
        invariant needRepaint == exists j :: 0 <= j < i && buttons[j].down
      {
        needRepaint := needRepaint || bs[i].down;
        bs := bs[i := bs[i].(down := false)];
        i := i + 1;
      }
      buttons := bs;
      needRepaint := needRepaint || btnMagnify.down;
      btnMagnify := btnMagnify.(down := false);
    }

    /** mouseClicked(): a left or right click on the enabled magnify button
        clicks it (doMagnify); otherwise a left click clicks the first plain
        button hit, which for the name button is doNameChange. */
    method MouseClicked(button: MouseButton, p: Point)
      requires Valid()
      modifies this`btnMagnify, this`buttons, this`nameMode,
               this`magnifyIndex, this`zoomFactor, this`hscrollMax, this`hscrollFactor, this`vscrollMax,
               this`vscrollFactor, this`hscrollValue, this`vscrollValue, this`hknobRect, this`vknobRect
      ensures Valid()
      ensures var onMagnify := (button == Button1 || button == Button3) && MagnifyHit(old(btnMagnify), p);
        && (onMagnify ==>
              && btnMagnify == old(btnMagnify).(clicks := old(btnMagnify).clicks + 1)
              && buttons == old(buttons) && nameMode == old(nameMode)
              && MagnifiedTo(StepMagnify(old(magnifyIndex), magnifyDirection)))
        && (!onMagnify && button == Button1 ==>
              && buttons == ClickFirstHit(old(buttons), p)
              && nameMode == (if FirstHit(old(buttons), p) == Some(BtnName)
                              then NextNameMode(old(nameMode)) else old(nameMode))
              && btnMagnify == old(btnMagnify)
              && MagnifiedTo(old(magnifyIndex)))
        && (!onMagnify && button != Button1 ==>
              && buttons == old(buttons) && nameMode == old(nameMode) && btnMagnify == old(btnMagnify)
              && MagnifiedTo(old(magnifyIndex)))
    {
      if (button == Button1 || button == Button3) && !btnMagnify.disabled && Contains(btnMagnify.rect, p) {
        btnMagnify := btnMagnify.(clicks := btnMagnify.clicks + 1);
        DoMagnify();
      } else if button == Button1 {
        ClickLists(p);
      }
    }

    /** A left click off the magnify button: click the first plain button
        hit, running its action -- doNameChange() for the name button. */
    method ClickLists(p: Point)
      requires Valid()
      modifies this`buttons, this`nameMode
      ensures Valid()
      ensures buttons == ClickFirstHit(old(buttons), p)
      ensures nameMode == if FirstHit(old(buttons), p) == Some(BtnName) then NextNameMode(old(nameMode)) else old(nameMode)
      ensures magnifyIndex == old(magnifyIndex) && ViewKept() && btnMagnify == old(btnMagnify)
    {
      var hit := FindFirstHit(buttons, p);
      if hit.Some? {
        var k := hit.value;
        buttons := buttons[k := buttons[k].(clicks := buttons[k].clicks + 1)];
        if k == BtnName {
          DoNameChange();
        }
      }
    }

    /** mouseWheelMoved(): inside the map only. With Ctrl, one notch steps the
        magnification (up: in, down: out); with Shift, it scrolls one step
        horizontally, otherwise one step vertically. */
    method MouseWheelMoved(p: Point, rotation: int, controlDown: bool, shiftDown: bool)
      requires Valid()
      modifies this`magnifyIndex, this`zoomFactor, this`hscrollMax, this`hscrollFactor, this`vscrollMax,
               this`vscrollFactor, this`hscrollValue, this`vscrollValue, this`hknobRect, this`vknobRect
      ensures Valid()
      ensures !Contains(regions.mapRect, p) ==> MagnifiedTo(old(magnifyIndex))
      ensures Contains(regions.mapRect, p) && controlDown ==> MagnifiedTo(WheelStep(old(magnifyIndex), rotation))
      ensures Contains(regions.mapRect, p) && !controlDown ==>
        && magnifyIndex == old(magnifyIndex) && zoomFactor == old(zoomFactor)
        && hscrollMax == old(hscrollMax) && hscrollFactor == old(hscrollFactor)
        && vscrollMax == old(vscrollMax) && vscrollFactor == old(vscrollFactor)
        && ScrolledTo(ScrollTarget(old(hscrollValue), if shiftDown then WheelDelta(rotation) else 0, zoomFactor, hscrollFactor),
                      ScrollTarget(old(vscrollValue), if shiftDown then 0 else WheelDelta(rotation), zoomFactor, vscrollFactor))
    {
      if Contains(regions.mapRect, p) {
        if controlDown {
          if rotation < 0 && magnifyIndex < |MagnifyFactors| - 1 {
            magnifyIndex := magnifyIndex + 1;
            Zoom(MagnifyZoom(magnifyIndex));
          } else if rotation > 0 && magnifyIndex > 0 {
            magnifyIndex := magnifyIndex - 1;
            Zoom(MagnifyZoom(magnifyIndex));
          }
        } else if shiftDown {
          if rotation < 0 {
            ScrollByPixelRel(-ScrollAmount, 0);
          } else {
            ScrollByPixelRel(ScrollAmount, 0);
          }
        } else {
          if rotation < 0 {
            ScrollByPixelRel(0, -ScrollAmount);
          } else {
            ScrollByPixelRel(0, ScrollAmount);
          }
        }
      }
    }
  }
}
