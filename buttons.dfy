/** The buttons of the map screen and the list operations the mouse handlers
    perform on them: hit testing, first-match dispatch, pressing, toggling,
    releasing, and stacking the satellite buttons. A button is a value; the
    screen keeps its buttons in sequences, in the order they were created. */
module Buttons {
  import opened Geometry

  datatype Option<T> = None | Some(value: T)

  /** A button (hu.openig.core.Btn): its area, its flags, and how many times
      its click() has run. click() runs the button's action, if it has one;
      the count stands for that call. */
  datatype Btn = Btn(rect: Rect, visible: bool, disabled: bool, down: bool, clicks: nat)

  /** A button as `new Btn()` leaves it. */
  const NewBtn: Btn := Btn(EmptyRect, true, false, false, 0)

  /** Btn.test(Point): a visible, enabled button whose area holds the point. */
  function Test(b: Btn, p: Point): (hit: bool)
    ensures hit ==> Contains(b.rect, p) && b.visible && !b.disabled
    ensures !b.disabled && b.visible && Contains(b.rect, p) ==> hit
  {
    b.visible && !b.disabled && Contains(b.rect, p)
  }

  /** Two button lists that differ at most in their down flags and click
      counts: the same buttons in the same places, as far as Test can tell. */
  predicate SameTargets(bs: seq<Btn>, cs: seq<Btn>)
  {
    |bs| == |cs| &&
    forall i :: 0 <= i < |bs| ==>
      bs[i].rect == cs[i].rect && bs[i].visible == cs[i].visible && bs[i].disabled == cs[i].disabled
  }

  // ---------------------------------------------------------------------
  // First-match dispatch

  /** The index of the first button in list order whose test passes: the
      button a `for (Btn b : list) if (b.test(pt)) { ...; break; }` loop acts
      on, or None when no test passes. */
  function FirstHit(bs: seq<Btn>, p: Point): (r: Option<nat>)
    ensures r.Some? ==> r.value < |bs| && Test(bs[r.value], p)
    ensures r.Some? ==> forall j :: 0 <= j < r.value ==> !Test(bs[j], p)
    ensures r.None? <==> forall j :: 0 <= j < |bs| ==> !Test(bs[j], p)
  {
    if bs == [] then None
    else if Test(bs[0], p) then Some(0)
    else match FirstHit(bs[1..], p)
      case None => None
      case Some(k) => Some(k + 1)
  }

  /** The first-match loop: walk the list in order and stop at the first
      button whose test passes. */
  method FindFirstHit(bs: seq<Btn>, p: Point) returns (r: Option<nat>)
    ensures r == FirstHit(bs, p)
  {
    var i := 0;
    while i < |bs|
      invariant 0 <= i <= |bs|
      invariant forall j :: 0 <= j < i ==> !Test(bs[j], p)
    {
      if Test(bs[i], p) {
        return Some(i);
      }
      i := i + 1;
    }
    return None;
  }

  /** Pressing and clicking leave the areas and flags Test reads alone, so the
      first hit of a point does not change. */
  lemma {:induction false} FirstHitSameTargets(bs: seq<Btn>, cs: seq<Btn>, p: Point)
    requires SameTargets(bs, cs)
    ensures FirstHit(bs, p) == FirstHit(cs, p)
  {
    if bs != [] {
      assert Test(bs[0], p) == Test(cs[0], p);
      FirstHitSameTargets(bs[1..], cs[1..], p);
    }
  }

  // ---------------------------------------------------------------------
  // Press, toggle and click

  /** mousePressed() on the plain buttons: the first button hit goes down. */
  function PressFirstHit(bs: seq<Btn>, p: Point): (r: seq<Btn>)
    ensures SameTargets(bs, r)
    ensures forall i :: 0 <= i < |bs| ==>
      r[i].down == (bs[i].down || FirstHit(bs, p) == Some(i)) && r[i].clicks == bs[i].clicks
  {
    match FirstHit(bs, p)
    case None => bs
    case Some(k) => bs[k := bs[k].(down := true)]
  }

  /** mousePressed() on the toggle buttons: the first button hit flips its
      down flag and is clicked. */
  function ToggleFirstHit(bs: seq<Btn>, p: Point): (r: seq<Btn>)
    ensures SameTargets(bs, r)
    ensures forall i :: 0 <= i < |bs| && FirstHit(bs, p) != Some(i) ==> r[i] == bs[i]
    ensures forall i :: 0 <= i < |bs| && FirstHit(bs, p) == Some(i) ==>
      r[i].down == !bs[i].down && r[i].clicks == bs[i].clicks + 1
  {
    match FirstHit(bs, p)
    case None => bs
    case Some(k) => bs[k := bs[k].(down := !bs[k].down, clicks := bs[k].clicks + 1)]
  }

  /** Pressing the same point twice toggles the same button twice: every down
      flag is back where it was, and that button was clicked twice. */
  lemma ToggleTwiceRestoresDown(bs: seq<Btn>, p: Point)
    ensures var r := ToggleFirstHit(ToggleFirstHit(bs, p), p);
      && |r| == |bs|
      && (forall i :: 0 <= i < |bs| ==> r[i].down == bs[i].down)
      && (forall i :: 0 <= i < |bs| ==>
            r[i].clicks == bs[i].clicks + (if FirstHit(bs, p) == Some(i) then 2 else 0))
  {
    FirstHitSameTargets(bs, ToggleFirstHit(bs, p), p);
  }

  /** mouseClicked() on the plain buttons: the first button hit is clicked. */
  function ClickFirstHit(bs: seq<Btn>, p: Point): (r: seq<Btn>)
    ensures SameTargets(bs, r)
    ensures forall i :: 0 <= i < |bs| ==>
      r[i] == bs[i].(clicks := bs[i].clicks + (if FirstHit(bs, p) == Some(i) then 1 else 0))
  {
    match FirstHit(bs, p)
    case None => bs
    case Some(k) => bs[k := bs[k].(clicks := bs[k].clicks + 1)]
  }

  /** The number of click() calls made on a list of buttons so far. */
  function TotalClicks(bs: seq<Btn>): nat
  {
    if bs == [] then 0 else bs[0].clicks + TotalClicks(bs[1..])
  }

  /** Adding `n` to the click count of one button adds `n` to the total. */
  lemma {:induction false} TotalClicksAdd(bs: seq<Btn>, k: nat, n: nat)
    requires k < |bs|
    ensures TotalClicks(bs[k := bs[k].(clicks := bs[k].clicks + n)]) == TotalClicks(bs) + n
  {
    var cs := bs[k := bs[k].(clicks := bs[k].clicks + n)];
    if k > 0 {
      assert cs[1..] == bs[1..][k - 1 := bs[k].(clicks := bs[k].clicks + n)];
      TotalClicksAdd(bs[1..], k - 1, n);
    } else {
      assert cs[1..] == bs[1..];
    }
  }

  /** A click runs exactly one action when some button is hit and none
      otherwise. */
  lemma ClickRunsAtMostOneAction(bs: seq<Btn>, p: Point)
    ensures TotalClicks(ClickFirstHit(bs, p)) ==
      TotalClicks(bs) + (if FirstHit(bs, p).Some? then 1 else 0)
  {
    var hit := FirstHit(bs, p);
    if hit.Some? {
      var k := hit.value;
      assert ClickFirstHit(bs, p) == bs[k := bs[k].(clicks := bs[k].clicks + 1)];
      TotalClicksAdd(bs, k, 1);
    } else {
      assert ClickFirstHit(bs, p) == bs;
    }
  }

  // ---------------------------------------------------------------------
  // Release

  /** Whether any button of the list is down. */
  predicate AnyDown(bs: seq<Btn>)
  {
    exists i :: 0 <= i < |bs| && bs[i].down
  }

  /** mouseReleased() on a list: every button comes up, nothing else changes. */
  function ReleaseAll(bs: seq<Btn>): (r: seq<Btn>)
    ensures |r| == |bs|
    ensures forall i :: 0 <= i < |bs| ==> r[i] == bs[i].(down := false)
  {
    seq(|bs|, i requires 0 <= i < |bs| => bs[i].(down := false))
  }

  /** After a release no button is down, and a second release changes
      nothing. */
  lemma ReleaseAllIdempotent(bs: seq<Btn>)
    ensures !AnyDown(ReleaseAll(bs))
    ensures ReleaseAll(ReleaseAll(bs)) == ReleaseAll(bs)
    ensures SameTargets(bs, ReleaseAll(bs))
  {
  }

  // ---------------------------------------------------------------------
  // Layout helpers

  /** Give the first |rs| buttons the areas rs, in order. */
  function SetRects(bs: seq<Btn>, rs: seq<Rect>): (r: seq<Btn>)
    requires |rs| <= |bs|
    ensures |r| == |bs|
    ensures forall i :: 0 <= i < |rs| ==> r[i] == bs[i].(rect := rs[i])
    ensures forall i :: |rs| <= i < |bs| ==> r[i] == bs[i]
  {
    seq(|bs|, i requires 0 <= i < |bs| => if i < |rs| then bs[i].(rect := rs[i]) else bs[i])
  }

  /** Width, height and spacing of the satellite buttons. */
  const SatelliteWidth: int := 84
  const SatelliteHeight: int := 17
  const SatelliteStep: int := 20

  /** The number of visible buttons in a list. */
  function CountVisible(bs: seq<Btn>): nat
  {
    if bs == [] then 0 else (if bs[0].visible then 1 else 0) + CountVisible(bs[1..])
  }

  /** Appending a button adds one to the count exactly when it is visible. */
  lemma {:induction false} CountVisibleSnoc(bs: seq<Btn>, b: Btn)
    ensures CountVisible(bs + [b]) == CountVisible(bs) + (if b.visible then 1 else 0)
  {
    if bs != [] {
      assert (bs + [b])[1..] == bs[1..] + [b];
      CountVisibleSnoc(bs[1..], b);
    } else {
      assert [b][1..] == [];
    }
  }

  /** One more button in a prefix adds one to its count exactly when that
      button is visible. */
  lemma CountVisiblePrefix(bs: seq<Btn>, k: nat)
    requires k < |bs|
    ensures CountVisible(bs[..k + 1]) == CountVisible(bs[..k]) + (if bs[k].visible then 1 else 0)
  {
    assert bs[..k + 1] == bs[..k] + [bs[k]];
    CountVisibleSnoc(bs[..k], bs[k]);
  }

  /** updateSatellites(): the visible buttons are stacked top-down from (x, y),
      one step apart; hidden buttons keep their old area. */
  function StackVisible(bs: seq<Btn>, x: int, y: int): (r: seq<Btn>)
    ensures |r| == |bs|
    decreases |bs|
  {
    if bs == [] then []
    else if bs[0].visible then [bs[0].(rect := Rect(x, y, SatelliteWidth, SatelliteHeight))] + StackVisible(bs[1..], x, y + SatelliteStep)
    else [bs[0]] + StackVisible(bs[1..], x, y)
  }

  /** Where stacking puts each button: a visible one in the slot given by the
      number of visible buttons before it, a hidden one nowhere new. */
  lemma {:induction false} StackVisibleAt(bs: seq<Btn>, x: int, y: int, i: nat)
    requires i < |bs|
    ensures StackVisible(bs, x, y)[i] ==
      if bs[i].visible
      then bs[i].(rect := Rect(x, y + SatelliteStep * CountVisible(bs[..i]), SatelliteWidth, SatelliteHeight))
      else bs[i]
  {
    if i > 0 {
      var y' := if bs[0].visible then y + SatelliteStep else y;
      StackVisibleAt(bs[1..], x, y', i - 1);
      assert bs[1..][..i - 1] == bs[..i][1..];
      assert bs[..i][0] == bs[0];
    }
  }

  /** Two visible satellite buttons never overlap: the slots are a step apart
      and a button is shorter than a step. */
  lemma StackedButtonsDisjoint(bs: seq<Btn>, x: int, y: int, i: nat, j: nat)
    requires i < j < |bs| && bs[i].visible && bs[j].visible
    ensures var r := StackVisible(bs, x, y);
      r[i].rect.y + r[i].rect.height < r[j].rect.y
  {
    StackVisibleAt(bs, x, y, i);
    StackVisibleAt(bs, x, y, j);
    CountVisibleGrows(bs, i, j);
  }

  /** A visible button adds one to the count of the buttons before a later one. */
  lemma {:induction false} CountVisibleGrows(bs: seq<Btn>, i: nat, j: nat)
    requires i < j <= |bs| && bs[i].visible
    ensures CountVisible(bs[..j]) >= CountVisible(bs[..i]) + 1
  {
    if i == 0 {
      assert bs[..j][0] == bs[0];
      assert CountVisible(bs[..j]) == 1 + CountVisible(bs[..j][1..]);
      assert bs[..0] == [];
    } else {
      assert bs[..j][1..] == bs[1..][..j - 1];
      assert bs[..i][1..] == bs[1..][..i - 1];
      CountVisibleGrows(bs[1..], i - 1, j - 1);
    }
  }
}
