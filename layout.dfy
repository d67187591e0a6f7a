/** updateRegions(): every rectangle of the map screen as a function of the
    component's width and height and the image sizes. Nothing is clamped: a
    window smaller than the frame images gives rectangles of negative size. */
module Layout {
  import opened Geometry
  import opened Gfx

  /** The named regions of the map screen: the scrollbars, the ship control
      and minimap panels, the map viewport, the frame images and the colony
      and equipment list areas. */
  datatype Regions = Regions(
    hscrollRect: Rect, vscrollRect: Rect, shipControlRect: Rect, minimapRect: Rect, mapRect: Rect,
    bottomLeftRect: Rect, bottomRightRect: Rect, bottomFillerRect: Rect,
    rightTopRect: Rect, rightBottomRect: Rect, rightFillerRect: Rect,
    colonies: Rect, equipments: Rect)

  /** The regions of the map screen and the areas of its buttons. */
  datatype Layout = Layout(
    regions: Regions,
    colonyPrev: Rect, colonyNext: Rect, colony: Rect,
    equipmentPrev: Rect, equipmentNext: Rect, equipment: Rect,
    info: Rect, bridge: Rect, magnify: Rect,
    colonize: Rect, radars: Rect, fleets: Rect, stars: Rect, grids: Rect, name: Rect,
    move: Rect, attack: Rect, stop: Rect)

  /** The rectangles updateRegions() computes for a w x h component. */
  function ComputeLayout(w: int, h: int, g: ImageSizes): Layout
  {
    var bh := g.commonBottomLeftHeight + g.bottomLeftHeight;
    var hscroll := Rect(3, h - bh + 3, w - 142, 18);
    var vscroll := Rect(w - g.rightBottomWidth + 3, g.commonTopRightHeight + 3, 18,
                        h - bh - g.commonTopRightHeight - 7);
    var shipControl := Rect(w - 355, h - bh + 28, 106, 83);
    var minimap := Rect(w - 133, h - 109 - g.commonBottomRightHeight, 131, 108);
    var mapR := Rect(0, g.commonTopLeftHeight, w - g.rightTopWidth,
                     h - g.commonTopLeftHeight - g.commonBottomLeftHeight - g.bottomLeftHeight);
    var bottomLeft := Rect(0, h - g.commonBottomLeftHeight - g.bottomLeftHeight, g.bottomLeftWidth, g.bottomLeftHeight);
    var bottomRight := Rect(w - g.bottomRightWidth, bottomLeft.y, g.bottomRightWidth, g.bottomRightHeight);
    var fillerX := bottomLeft.x + bottomLeft.width;
    var bottomFiller := Rect(fillerX, bottomLeft.y, bottomRight.x - fillerX, g.bottomFillerHeight);
    var rightTop := Rect(w - g.rightTopWidth, g.commonTopRightHeight, g.rightTopWidth, g.rightTopHeight);
    var rightBottom := Rect(rightTop.x, bottomRight.y - g.rightBottomHeight, g.rightBottomWidth, g.rightBottomHeight);
    var rightFillerY := rightTop.y + rightTop.height;
    var rightFiller := Rect(rightTop.x, rightFillerY, g.rightFillerWidth, rightBottom.y - rightFillerY);

    var colonyPrev := Rect(w - 105, rightTop.y + 5, 50, 20);
    var colonyNext := Rect(colonyPrev.x + 52, colonyPrev.y, 50, 20);
    var coloniesY := colonyPrev.y + colonyPrev.height;
    var colonies := Rect(colonyPrev.x - 2, coloniesY, 105, rightBottom.y + 16 - coloniesY);
    var colony := Rect(colonies.x + 1, colonies.y + colonies.height, colonies.width - 2, 28);
    var equipmentPrev := Rect(colonyPrev.x, colony.y + colony.height + 7, 50, 20);
    var equipmentNext := Rect(equipmentPrev.x + 52, equipmentPrev.y, 50, 20);
    var equipments := Rect(colonies.x, equipmentPrev.y + equipmentPrev.height, 105, 33);
    var equipment := Rect(colony.x, equipments.y + equipments.height, 103, 28);
    var info := Rect(colony.x + 1, equipment.y + 105, 102, 39);
    var bridge := Rect(info.x, info.y + info.height, 102, 39);
    var magnify := Rect(69 + equipment.x, 35 + equipment.y, 33, 64);

    var colonize := Rect(w - 245, bottomLeft.y + 30, 108, 15);
    var radars := Rect(colonize.x, colonize.y + 21, 53, 18);
    var fleets := Rect(radars.x + 55, radars.y, 53, 18);
    var stars := Rect(radars.x, radars.y + 20, 53, 18);
    var grids := Rect(fleets.x, stars.y, 53, 18);
    var name := Rect(stars.x, stars.y + 20, 108, 18);
    var move := Rect(stars.x - 105, colonize.y + 1, 98, 23);
    var attack := Rect(move.x, move.y + 27, 98, 23);
    var stop := Rect(move.x, attack.y + 27, 98, 23);

    Layout(Regions(hscroll, vscroll, shipControl, minimap, mapR,
                   bottomLeft, bottomRight, bottomFiller, rightTop, rightBottom, rightFiller,
                   colonies, equipments),
           colonyPrev, colonyNext, colony, equipmentPrev, equipmentNext, equipment,
           info, bridge, magnify,
           colonize, radars, fleets, stars, grids, name,
           move, attack, stop)
  }

  /** The screen closes up around the map viewport: the viewport meets the
      right and bottom panels, the frame images and fillers join without
      gaps, and the button columns and the toggle grid are stacked as
      drawn. */
  lemma LayoutClosesUp(w: int, h: int, g: ImageSizes)
    ensures var L := ComputeLayout(w, h, g);
      // the map viewport fills the space left of the right panel and above the
      // bottom panel, and the frame images close up around it without gaps
      && L.regions.mapRect.x == 0 && L.regions.mapRect.x + L.regions.mapRect.width == L.regions.rightTopRect.x
      && L.regions.mapRect.y + L.regions.mapRect.height == L.regions.bottomLeftRect.y
      && L.regions.bottomLeftRect.y + L.regions.bottomLeftRect.height + g.commonBottomLeftHeight == h
      && L.regions.rightTopRect.x + L.regions.rightTopRect.width == w
      && L.regions.bottomFillerRect.x == L.regions.bottomLeftRect.x + L.regions.bottomLeftRect.width
      && L.regions.bottomFillerRect.x + L.regions.bottomFillerRect.width == L.regions.bottomRightRect.x
      && L.regions.bottomRightRect.y == L.regions.bottomLeftRect.y && L.regions.bottomRightRect.x + L.regions.bottomRightRect.width == w
      && L.regions.rightFillerRect.y == L.regions.rightTopRect.y + L.regions.rightTopRect.height
      && L.regions.rightFillerRect.y + L.regions.rightFillerRect.height == L.regions.rightBottomRect.y
      && L.regions.rightBottomRect.y + L.regions.rightBottomRect.height == L.regions.bottomRightRect.y
      // the horizontal scrollbar runs along the top of the bottom panel
      && L.regions.hscrollRect.y == L.regions.bottomLeftRect.y + 3
      // the colony and equipment columns stack without gaps
      && L.colonyNext.x == L.colonyPrev.x + L.colonyPrev.width + 2 && L.colonyNext.y == L.colonyPrev.y
      && L.regions.colonies.y == L.colonyPrev.y + L.colonyPrev.height
      && L.colony.y == L.regions.colonies.y + L.regions.colonies.height
      && L.equipmentNext.x == L.equipmentPrev.x + L.equipmentPrev.width + 2
      && L.regions.equipments.y == L.equipmentPrev.y + L.equipmentPrev.height
      && L.equipment.y == L.regions.equipments.y + L.regions.equipments.height
      && L.bridge.y == L.info.y + L.info.height
      // the magnify button sits in the equipment column between the equipment
      // and info buttons, overlapping neither
      && L.equipment.x <= L.magnify.x && L.magnify.x + L.magnify.width <= L.equipment.x + L.equipment.width
      && L.equipment.y + L.equipment.height <= L.magnify.y
      && L.magnify.y + L.magnify.height <= L.info.y
      // the toggle grid: radars and fleets side by side, stars and grids below
      // them, the name button below that spanning both columns
      && L.radars.y == L.colonize.y + 21 && L.fleets.y == L.radars.y && L.fleets.x == L.radars.x + 55
      && L.stars.x == L.radars.x && L.stars.y == L.radars.y + 20 && L.grids.x == L.fleets.x && L.grids.y == L.stars.y
      && L.name.x == L.stars.x && L.name.y == L.stars.y + 20 && L.name.width == L.colonize.width
      && L.attack.y == L.move.y + 27 && L.stop.y == L.attack.y + 27
  {
  }

  /** Enlarging the window by (dw, dh) stretches the map viewport by the same
      amounts and carries the panels anchored to the bottom-right corner
      along with it. */
  lemma ResizeMovesCornerPanels(w: int, h: int, dw: int, dh: int, g: ImageSizes)
    ensures var L := ComputeLayout(w, h, g); var M := ComputeLayout(w + dw, h + dh, g);
      && M.regions.mapRect.width == L.regions.mapRect.width + dw && M.regions.mapRect.height == L.regions.mapRect.height + dh
      && M.regions.hscrollRect.width == L.regions.hscrollRect.width + dw
      && M.regions.vscrollRect.height == L.regions.vscrollRect.height + dh
      && M.regions.minimapRect == Shifted(L.regions.minimapRect, dw, dh)
      && M.regions.shipControlRect == Shifted(L.regions.shipControlRect, dw, dh)
      && M.colony == Shifted(L.colony, dw, dh)
      && M.equipment == Shifted(L.equipment, dw, dh)
      && M.magnify == Shifted(L.magnify, dw, dh)
      && M.colonize == Shifted(L.colonize, dw, dh)
      && M.name == Shifted(L.name, dw, dh)
      && M.colonyPrev == Shifted(L.colonyPrev, dw, 0)
  {
  }

  /** The areas of the plain buttons, in the order of the button list. */
  function PlainButtonRects(L: Layout): (rs: seq<Rect>)
    ensures |rs| == 10
  {
    [L.colony, L.colonyPrev, L.colonyNext, L.equipment, L.equipmentPrev, L.equipmentNext,
     L.info, L.bridge, L.colonize, L.name]
  }

  /** The areas of the toggle buttons, in the order of the toggle list. */
  function ToggleButtonRects(L: Layout): (rs: seq<Rect>)
    ensures |rs| == 7
  {
    [L.fleets, L.grids, L.radars, L.stars, L.move, L.attack, L.stop]
  }
}
