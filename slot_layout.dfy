/**
 * The per-child layout formula of the toggle panel: a slot's anchors, offsets,
 * alignment and auto-size flag, turned into a position and size against the
 * size the panel was allotted, and the slot's contribution to the panel's
 * desired size. Each axis is computed the same way, so the formula is stated
 * once over an `Axis` view and applied to the horizontal and vertical views.
 */
module SlotLayout {
  import opened SlateTypes
  import opened ToggleDefine

  /** The attributes a slate slot holds (offset, anchors, alignment, auto-size, z-order, tag). */
  datatype SlotAttrs = SlotAttrs(
    offset: Margin,
    anchors: Anchors,
    alignment: Vec2,
    autoSize: bool,
    zOrder: real,
    slotType: SlotType)

  /** A slot as the arrangement sees it: its attributes and its widget's desired size and visibility. */
  datatype SlotView = SlotView(attrs: SlotAttrs, desiredSize: Vec2, visibility: Visibility)

  /** One axis of a slot: anchor fractions, near/far offsets and alignment fraction. */
  datatype Axis = Axis(anchorMin: real, anchorMax: real, near: real, far: real, align: real)

  /** A position and length along one axis. */
  datatype Span = Span(pos: real, len: real)

  function Horizontal(d: AnchorData): (a: Axis)
    ensures a.anchorMin != a.anchorMax <==> IsStretchedHorizontal(d.anchors)
  {
    Axis(d.anchors.minimum.x, d.anchors.maximum.x, d.offsets.left, d.offsets.right, d.alignment.x)
  }

  function Vertical(d: AnchorData): (a: Axis)
    ensures a.anchorMin != a.anchorMax <==> IsStretchedVertical(d.anchors)
  {
    Axis(d.anchors.minimum.y, d.anchors.maximum.y, d.offsets.top, d.offsets.bottom, d.alignment.y)
  }

  predicate Stretched(a: Axis) {
    a.anchorMin != a.anchorMax
  }

  /**
   * Arrangement along one axis. On a stretched axis the near offset is a
   * margin from the near anchor and the far offset a margin from the far
   * anchor; on a docked axis the far offset is the length (or the widget's
   * desired length with auto-size) and the alignment shifts the position.
   */
  function ArrangeAxis(a: Axis, autoSize: bool, desired: real, extent: real): (s: Span)
    ensures Stretched(a) ==> s.pos == a.anchorMin * extent + a.near
    ensures Stretched(a) ==> s.pos + s.len + a.far == a.anchorMax * extent
    ensures !Stretched(a) ==> s.len == (if autoSize then desired else a.far)
    ensures !Stretched(a) ==> s.pos + s.len * a.align == a.anchorMin * extent + a.near
  {
    var anchorNear := a.anchorMin * extent;
    var anchorFar := a.anchorMax * extent;
    var size := if autoSize then desired else a.far;
    var alignmentOffset := size * a.align;
    if Stretched(a) then
      var pos := anchorNear + a.near;
      Span(pos, anchorFar - pos - a.far)
    else
      Span(anchorNear + a.near - alignmentOffset, size)
  }

  function LayoutOf(attrs: SlotAttrs): AnchorData {
    AnchorData(attrs.offset, attrs.anchors, attrs.alignment)
  }

  /** The geometry of one child inside an allotted size: each axis arranged independently. */
  function ArrangeChild(v: SlotView, allotted: Vec2): Rect
  {
    var d := LayoutOf(v.attrs);
    var h := ArrangeAxis(Horizontal(d), v.attrs.autoSize, v.desiredSize.x, allotted.x);
    var w := ArrangeAxis(Vertical(d), v.attrs.autoSize, v.desiredSize.y, allotted.y);
    Rect(Vec2(h.pos, w.pos), Vec2(h.len, w.len))
  }

  /**
   * A child's rectangle, axis by axis: on a stretched axis it spans from the
   * near anchor plus the near offset to the far anchor minus the far offset;
   * on a docked axis its size is the desired size (auto-size) or the far
   * offset, and the alignment fraction of that size sits at the near anchor
   * plus the near offset.
   */
  lemma ArrangeChildMeaning(v: SlotView, allotted: Vec2)
    ensures var r, o, a := ArrangeChild(v, allotted), v.attrs.offset, v.attrs.anchors;
      IsStretchedHorizontal(a) ==>
        r.position.x == a.minimum.x * allotted.x + o.left
        && r.position.x + r.size.x + o.right == a.maximum.x * allotted.x
    ensures var r, o, a := ArrangeChild(v, allotted), v.attrs.offset, v.attrs.anchors;
      !IsStretchedHorizontal(a) ==>
        r.size.x == (if v.attrs.autoSize then v.desiredSize.x else o.right)
        && r.position.x + r.size.x * v.attrs.alignment.x == a.minimum.x * allotted.x + o.left
    ensures var r, o, a := ArrangeChild(v, allotted), v.attrs.offset, v.attrs.anchors;
      IsStretchedVertical(a) ==>
        r.position.y == a.minimum.y * allotted.y + o.top
        && r.position.y + r.size.y + o.bottom == a.maximum.y * allotted.y
    ensures var r, o, a := ArrangeChild(v, allotted), v.attrs.offset, v.attrs.anchors;
      !IsStretchedVertical(a) ==>
        r.size.y == (if v.attrs.autoSize then v.desiredSize.y else o.bottom)
        && r.position.y + r.size.y * v.attrs.alignment.y == a.minimum.y * allotted.y + o.top
  {
  }

  /** Docked at the near or far edge: both anchors equal and at 0 or 1. */
  predicate DockedAtEdge(anchorMin: real, anchorMax: real)
    ensures DockedAtEdge(anchorMin, anchorMax) ==> anchorMin == anchorMax
  {
    anchorMin == anchorMax && (anchorMin == 0.0 || anchorMin == 1.0)
  }

  /**
   * What one child asks of the panel's desired size: its own size, plus the
   * magnitude of its near offset on an axis where it is docked at an edge.
   */
  function DesiredContribution(v: SlotView): (c: Vec2)
    ensures c.x >= (if v.attrs.autoSize then v.desiredSize.x else v.attrs.offset.right)
    ensures c.y >= (if v.attrs.autoSize then v.desiredSize.y else v.attrs.offset.bottom)
    ensures !DockedAtEdge(v.attrs.anchors.minimum.x, v.attrs.anchors.maximum.x) ==>
      c.x == (if v.attrs.autoSize then v.desiredSize.x else v.attrs.offset.right)
    ensures !DockedAtEdge(v.attrs.anchors.minimum.y, v.attrs.anchors.maximum.y) ==>
      c.y == (if v.attrs.autoSize then v.desiredSize.y else v.attrs.offset.bottom)
    ensures DockedAtEdge(v.attrs.anchors.minimum.x, v.attrs.anchors.maximum.x) ==>
      c.x == (if v.attrs.autoSize then v.desiredSize.x else v.attrs.offset.right) + Abs(v.attrs.offset.left)
    ensures DockedAtEdge(v.attrs.anchors.minimum.y, v.attrs.anchors.maximum.y) ==>
      c.y == (if v.attrs.autoSize then v.desiredSize.y else v.attrs.offset.bottom) + Abs(v.attrs.offset.top)
  {
    var o := v.attrs.offset;
    var a := v.attrs.anchors;
    var size := if v.attrs.autoSize then v.desiredSize else Vec2(o.right, o.bottom);
    var dockedH := DockedAtEdge(a.minimum.x, a.maximum.x);
    var dockedV := DockedAtEdge(a.minimum.y, a.maximum.y);
    Vec2(size.x + (if dockedH then Abs(o.left) else 0.0),
         size.y + (if dockedV then Abs(o.top) else 0.0))
  }

  /** The full-stretch example: anchors (0,0)-(1,1), margins of 10 in a 200x100 parent. */
  lemma FullStretchExample()
    ensures var v := SlotView(SlotAttrs(Margin(10.0, 10.0, 10.0, 10.0),
                                        Anchors(Vec2(0.0, 0.0), Vec2(1.0, 1.0)),
                                        Vec2(0.5, 0.5), false, 0.0, SlotType.Other),
                              Vec2(0.0, 0.0), Visible);
            ArrangeChild(v, Vec2(200.0, 100.0)) == Rect(Vec2(10.0, 10.0), Vec2(180.0, 80.0))
  {
  }

  /** The docked-and-centred example: a 50x20 child at anchor (0,0) with alignment (0.5,0.5). */
  lemma DockedAlignmentExample(allotted: Vec2)
    ensures var v := SlotView(SlotAttrs(Margin(0.0, 0.0, 50.0, 20.0), PointAnchors(0.0, 0.0),
                                        Vec2(0.5, 0.5), false, 0.0, SlotType.Other),
                              Vec2(0.0, 0.0), Visible);
            ArrangeChild(v, allotted) == Rect(Vec2(-25.0, -10.0), Vec2(50.0, 20.0))
  {
  }
}
