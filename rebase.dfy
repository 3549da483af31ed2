/**
 * The designer-side layout edits of a toggle slot, as pure functions of the
 * slot's layout: re-expressing the offsets after an edit so that the child
 * stays put (the rebase), nudging by a direction with optional grid snapping,
 * and placing a dragged-in child at the cursor.
 */
module Rebase {
  import opened SlateTypes
  import opened GridSnap
  import opened SlotLayout

  /** Rebuilds a layout from its two axis views; anchors and alignment are kept. */
  function WithAxes(d: AnchorData, h: Axis, v: Axis): AnchorData {
    d.(offsets := Margin(h.near, v.near, h.far, v.far))
  }

  /** Taking the axis views of a rebuilt layout gives back the axes' offsets. */
  lemma WithAxesViews(d: AnchorData, h: Axis, v: Axis)
    requires h.anchorMin == d.anchors.minimum.x && h.anchorMax == d.anchors.maximum.x && h.align == d.alignment.x
    requires v.anchorMin == d.anchors.minimum.y && v.anchorMax == d.anchors.maximum.y && v.align == d.alignment.y
    ensures Horizontal(WithAxes(d, h, v)) == h && Vertical(WithAxes(d, h, v)) == v
  {
  }

  /**
   * One axis after the anchors changed. `preStretched` says whether the axis
   * was stretched before the edit; `prePos` and `preSize` are the child's
   * geometry before the edit and `extent` the panel's size on this axis.
   */
  function AnchorsMovedAxis(cur: Axis, preStretched: bool, prePos: real, preSize: real, extent: real,
                            preserveSize: bool): (r: Axis)
    ensures r.anchorMin == cur.anchorMin && r.anchorMax == cur.anchorMax && r.align == cur.align
    ensures !Stretched(cur) && !preStretched ==> r.far == cur.far
  {
    var anchorNear := cur.anchorMin * extent;
    var anchorFar := cur.anchorMax * extent;
    var leftTopDelta := prePos - anchorNear;
    var alignmentOffset := cur.align * preSize;
    if !Stretched(cur) && preStretched then
      cur.(near := leftTopDelta + alignmentOffset, far := preSize)
    else if !preserveSize && Stretched(cur) && !preStretched then
      cur.(near := 0.0, far := 0.0)
    else if Stretched(cur) then
      var near := leftTopDelta;
      cur.(near := near, far := anchorFar - (anchorNear + near + preSize))
    else
      cur.(near := leftTopDelta + alignmentOffset)
  }

  /**
   * After an anchor change the child is laid out where it was before, with
   * the size it had, unless a docked axis becomes stretched without
   * preserving the size. On an axis docked before and after, this needs the
   * size offset to be the size the child had.
   */
  lemma AnchorsMovedKeepsGeometry(cur: Axis, preStretched: bool, prePos: real, preSize: real, extent: real,
                                  preserveSize: bool, desired: real)
    requires !(!preserveSize && Stretched(cur) && !preStretched)
    requires !Stretched(cur) && !preStretched ==> cur.far == preSize
    ensures ArrangeAxis(AnchorsMovedAxis(cur, preStretched, prePos, preSize, extent, preserveSize), false, desired, extent)
      == Span(prePos, preSize)
  {
    var r := AnchorsMovedAxis(cur, preStretched, prePos, preSize, extent, preserveSize);
    var s := ArrangeAxis(r, false, desired, extent);
    if !Stretched(cur) {
      assert r.far == preSize;
      assert s.pos + preSize * cur.align == cur.anchorMin * extent + r.near;
    }
  }

  /** A docked axis that becomes stretched without preserving the size fills the span between its anchors. */
  lemma AnchorsMovedFillsAnchorSpan(cur: Axis, prePos: real, preSize: real, extent: real, autoSize: bool, desired: real)
    requires Stretched(cur)
    ensures var s := ArrangeAxis(AnchorsMovedAxis(cur, false, prePos, preSize, extent, false), autoSize, desired, extent);
      s == Span(cur.anchorMin * extent, cur.anchorMax * extent - cur.anchorMin * extent)
  {
  }

  /**
   * One axis moved to a desired local position `target`. On a stretched axis
   * the far margin shifts by as much as the near one moved from `preNear`
   * (so the size is kept); on a docked axis the alignment offset is added.
   */
  function DesiredAxis(cur: Axis, target: real, preNear: real, preSize: real, extent: real): (r: Axis)
    ensures r.anchorMin == cur.anchorMin && r.anchorMax == cur.anchorMax && r.align == cur.align
    ensures Stretched(cur) ==> r.near + cur.anchorMin * extent == target && r.far - cur.far == preNear - r.near
    ensures !Stretched(cur) ==> r.near + cur.anchorMin * extent == target + cur.align * preSize && r.far == cur.far
  {
    var near := target - cur.anchorMin * extent;
    if Stretched(cur) then
      cur.(near := near, far := cur.far - (near - preNear))
    else
      cur.(near := near + cur.align * preSize)
  }

  /**
   * Moving to a desired position places the child there. A stretched axis
   * keeps the length it had with the near offset it had before the edit; a
   * docked axis needs its size offset to be the size the child had.
   */
  lemma DesiredPlacesAtTarget(cur: Axis, target: real, preNear: real, preSize: real, extent: real, desired: real)
    requires !Stretched(cur) ==> cur.far == preSize
    ensures var s := ArrangeAxis(DesiredAxis(cur, target, preNear, preSize, extent), false, desired, extent);
      s.pos == target
      && s.len == ArrangeAxis(cur.(near := preNear), false, desired, extent).len
  {
    var r := DesiredAxis(cur, target, preNear, preSize, extent);
    var s := ArrangeAxis(r, false, desired, extent);
    if !Stretched(cur) {
      assert s.pos + preSize * cur.align == cur.anchorMin * extent + r.near;
    }
  }

  /**
   * One axis whose near offset was typed in as a position relative to the
   * panel: it is re-expressed relative to the near anchor, plus the alignment
   * offset on a docked axis. The far offset is left alone.
   */
  function MovedAxis(cur: Axis, preSize: real, extent: real): (r: Axis)
    ensures r.anchorMin == cur.anchorMin && r.anchorMax == cur.anchorMax && r.align == cur.align
    ensures r.far == cur.far
    ensures Stretched(cur) ==> r.near + cur.anchorMin * extent == cur.near
    ensures !Stretched(cur) ==> r.near + cur.anchorMin * extent == cur.near + cur.align * preSize
  {
    var near := cur.near - cur.anchorMin * extent;
    if Stretched(cur) then cur.(near := near)
    else cur.(near := near + cur.align * preSize)
  }

  /** After the move the child's near edge sits at the typed-in position. */
  lemma MovedPlacesAtEnteredOffset(cur: Axis, preSize: real, extent: real, desired: real)
    requires !Stretched(cur) ==> cur.far == preSize
    ensures ArrangeAxis(MovedAxis(cur, preSize, extent), false, desired, extent).pos == cur.near
  {
    var r := MovedAxis(cur, preSize, extent);
    var s := ArrangeAxis(r, false, desired, extent);
    if !Stretched(cur) {
      assert s.pos + preSize * cur.align == cur.anchorMin * extent + r.near;
    }
  }

  /**
   * The rebase of a whole layout. `pre` is the layout saved before the edit,
   * `preGeometry` the child's geometry then, `canvas` the panel's size and
   * `desired` a pending desired position. Returns the new layout and what
   * remains of the desired position: it is consumed only when it was used.
   */
  function RebasedLayout(layout: AnchorData, pre: AnchorData, preGeometry: Rect, canvas: Vec2,
                         desired: Option<Vec2>, preserveSize: bool): (r: (AnchorData, Option<Vec2>))
    ensures r.0.anchors == layout.anchors && r.0.alignment == layout.alignment
    ensures r.1 == (if layout.anchors == pre.anchors && desired.Some? then None else desired)
    ensures (layout.anchors == pre.anchors && desired.None? && layout.offsets.left == pre.offsets.left
             && layout.offsets.top == pre.offsets.top) ==> r.0 == layout
  {
    var h, v := Horizontal(layout), Vertical(layout);
    var anchorsMoved := pre.anchors.minimum != layout.anchors.minimum || pre.anchors.maximum != layout.anchors.maximum;
    var moved := pre.offsets.left != layout.offsets.left || pre.offsets.top != layout.offsets.top;
    if anchorsMoved then
      (WithAxes(layout,
                AnchorsMovedAxis(h, IsStretchedHorizontal(pre.anchors), preGeometry.position.x,
                                 preGeometry.size.x, canvas.x, preserveSize),
                AnchorsMovedAxis(v, IsStretchedVertical(pre.anchors), preGeometry.position.y,
                                 preGeometry.size.y, canvas.y, preserveSize)),
       desired)
    else if desired.Some? then
      (WithAxes(layout,
                DesiredAxis(h, desired.value.x, pre.offsets.left, preGeometry.size.x, canvas.x),
                DesiredAxis(v, desired.value.y, pre.offsets.top, preGeometry.size.y, canvas.y)),
       None)
    else if moved then
      (WithAxes(layout, MovedAxis(h, preGeometry.size.x, canvas.x), MovedAxis(v, preGeometry.size.y, canvas.y)),
       desired)
    else
      (layout, desired)
  }

  /**
   * After an anchor change with the size preserved, and auto-size off, the
   * child is arranged exactly where and as large as it was before the edit,
   * provided its size offsets on axes docked before and after were its size.
   */
  lemma RebaseAfterAnchorChangeKeepsGeometry(layout: AnchorData, pre: AnchorData, preGeometry: Rect, canvas: Vec2,
                                             desired: Option<Vec2>, attrs: SlotAttrs, desiredSize: Vec2)
    requires pre.anchors != layout.anchors
    requires !IsStretchedHorizontal(layout.anchors) && !IsStretchedHorizontal(pre.anchors)
             ==> layout.offsets.right == preGeometry.size.x
    requires !IsStretchedVertical(layout.anchors) && !IsStretchedVertical(pre.anchors)
             ==> layout.offsets.bottom == preGeometry.size.y
    requires var r := RebasedLayout(layout, pre, preGeometry, canvas, desired, true).0;
      attrs.offset == r.offsets && attrs.anchors == r.anchors && attrs.alignment == r.alignment && !attrs.autoSize
    ensures ArrangeChild(SlotView(attrs, desiredSize, Visible), canvas) == preGeometry
  {
    var h, v := Horizontal(layout), Vertical(layout);
    var rh := AnchorsMovedAxis(h, IsStretchedHorizontal(pre.anchors), preGeometry.position.x,
                               preGeometry.size.x, canvas.x, true);
    var rv := AnchorsMovedAxis(v, IsStretchedVertical(pre.anchors), preGeometry.position.y,
                               preGeometry.size.y, canvas.y, true);
    assert pre.anchors.minimum != layout.anchors.minimum || pre.anchors.maximum != layout.anchors.maximum;
    WithAxesViews(layout, rh, rv);
    AnchorsMovedKeepsGeometry(h, IsStretchedHorizontal(pre.anchors), preGeometry.position.x,
                              preGeometry.size.x, canvas.x, true, desiredSize.x);
    AnchorsMovedKeepsGeometry(v, IsStretchedVertical(pre.anchors), preGeometry.position.y,
                              preGeometry.size.y, canvas.y, true, desiredSize.y);
  }

  /** The grid-snapped value of one coordinate, when snapping applies. */
  function SnapIf(x: real, snap: bool, grid: Option<int>): (r: real)
    requires grid.Some? ==> grid.value != 0
    ensures !snap || grid.None? ==> r == x
    ensures snap && grid.Some? ==> exists k :: r == GridPoint(k, grid.value)
    ensures snap && grid.Some? && x >= 0.0 ==> 0.0 <= r <= x < r + IntAbs(grid.value) as real
    ensures snap && grid.Some? && x < 0.0 ==> r - IntAbs(grid.value) as real < x <= r <= 0.0
  {
    if snap && grid.Some? then
      SnapIsGridMultiple(x, grid.value);
      SnapToGrid(x, grid.value)
    else x
  }

  /**
   * The position a nudge moves to: the old position plus the direction, with
   * each axis the nudge moves along snapped to the grid when one is set.
   */
  function NudgedPosition(oldPos: Vec2, dir: Vec2, grid: Option<int>): (p: Vec2)
    requires grid.Some? ==> grid.value != 0
    ensures grid.None? ==> p == Vec2(oldPos.x + dir.x, oldPos.y + dir.y)
    ensures dir.x == 0.0 ==> p.x == oldPos.x
    ensures dir.y == 0.0 ==> p.y == oldPos.y
    ensures grid.Some? && dir.x != 0.0 ==> exists k :: p.x == GridPoint(k, grid.value)
    ensures grid.Some? && dir.y != 0.0 ==> exists k :: p.y == GridPoint(k, grid.value)
  {
    Vec2(SnapIf(oldPos.x + dir.x, dir.x != 0.0, grid), SnapIf(oldPos.y + dir.y, dir.y != 0.0, grid))
  }

  /**
   * The size after a nudge: on a stretched axis the far margin moves with the
   * near one, so position plus size stays the same; otherwise the size is kept.
   */
  function NudgedSize(oldPos: Vec2, newPos: Vec2, oldSize: Vec2, anchors: Anchors): (s: Vec2)
    ensures IsStretchedHorizontal(anchors) ==> newPos.x + s.x == oldPos.x + oldSize.x
    ensures !IsStretchedHorizontal(anchors) ==> s.x == oldSize.x
    ensures IsStretchedVertical(anchors) ==> newPos.y + s.y == oldPos.y + oldSize.y
    ensures !IsStretchedVertical(anchors) ==> s.y == oldSize.y
  {
    Vec2(if IsStretchedHorizontal(anchors) then oldSize.x - (newPos.x - oldPos.x) else oldSize.x,
         if IsStretchedVertical(anchors) then oldSize.y - (newPos.y - oldPos.y) else oldSize.y)
  }

  /** The smallest size a dragged-in child is given. */
  const MinimumDefaultSize := Vec2(100.0, 40.0)

  /** The size of a dragged-in child: its desired size, but at least the minimum default size. */
  function DropSize(desired: Vec2): (s: Vec2)
    ensures s.x >= desired.x && s.x >= MinimumDefaultSize.x && (s.x == desired.x || s.x == MinimumDefaultSize.x)
    ensures s.y >= desired.y && s.y >= MinimumDefaultSize.y && (s.y == desired.y || s.y == MinimumDefaultSize.y)
  {
    Vec2(Max(desired.x, MinimumDefaultSize.x), Max(desired.y, MinimumDefaultSize.y))
  }

  /** A dragged-in child keeps its desired size exactly when that size is at least the minimum on both axes. */
  lemma DropSizeKeepsLargeChild(desired: Vec2)
    ensures DropSize(desired) == desired <==>
      desired.x >= MinimumDefaultSize.x && desired.y >= MinimumDefaultSize.y
    ensures desired.x <= MinimumDefaultSize.x && desired.y <= MinimumDefaultSize.y ==>
      DropSize(desired) == MinimumDefaultSize
  {
  }

  /** The position of a dragged-in child: the cursor, snapped per axis to that axis's grid when set. */
  function DropPosition(cursor: Vec2, xGrid: Option<int>, yGrid: Option<int>): (p: Vec2)
    requires xGrid.Some? ==> xGrid.value != 0
    requires yGrid.Some? ==> yGrid.value != 0
    ensures xGrid.None? ==> p.x == cursor.x
    ensures yGrid.None? ==> p.y == cursor.y
    ensures xGrid.Some? ==> exists k :: p.x == GridPoint(k, xGrid.value)
    ensures yGrid.Some? ==> exists k :: p.y == GridPoint(k, yGrid.value)
  {
    Vec2(SnapIf(cursor.x, true, xGrid), SnapIf(cursor.y, true, yGrid))
  }
}
