/**
 * Value types the toggle panel borrows from the host UI framework: 2D vectors,
 * four-sided margins, anchor rectangles, the anchor/offset/alignment bundle a
 * layout slot stores, arranged geometry, widget visibility and the tri-state
 * check-box value. Coordinates are modelled as `real`.
 */
module SlateTypes {

  datatype Option<T> = None | Some(value: T)

  /** A 2D vector (position, size, alignment fraction or anchor point). */
  datatype Vec2 = Vec2(x: real, y: real)

  /** A four-sided margin; on a docked axis `right`/`bottom` act as width/height. */
  datatype Margin = Margin(left: real, top: real, right: real, bottom: real)

  /** Anchor rectangle in normalized parent space. */
  datatype Anchors = Anchors(minimum: Vec2, maximum: Vec2)

  /** The layout bundle a slot caches: offsets, anchors and alignment. */
  datatype AnchorData = AnchorData(offsets: Margin, anchors: Anchors, alignment: Vec2)

  /** A child's arranged geometry: local position and size inside its parent. */
  datatype Rect = Rect(position: Vec2, size: Vec2)

  /** Widget visibility as reported by a child widget. */
  datatype Visibility = Visible | Collapsed | Hidden | HitTestInvisible | SelfHitTestInvisible

  /** The tri-state value of a check box, in the framework's declaration order. */
  datatype CheckBoxState = Unchecked | Checked | Undetermined

  /** Every visibility: the accept policy of an arrangement that keeps all children. */
  const AllVisibilities: set<Visibility> :=
    {Visible, Collapsed, Hidden, HitTestInvisible, SelfHitTestInvisible}

  /** A single anchor point used as both corners (docked on both axes). */
  function PointAnchors(x: real, y: real): (a: Anchors)
    ensures !IsStretchedHorizontal(a) && !IsStretchedVertical(a)
    ensures a.minimum == Vec2(x, y)
  {
    Anchors(Vec2(x, y), Vec2(x, y))
  }

  predicate IsStretchedHorizontal(a: Anchors) {
    a.minimum.x != a.maximum.x
  }

  predicate IsStretchedVertical(a: Anchors) {
    a.minimum.y != a.maximum.y
  }

  /** Ordinal of a check-box state (its position in the enum declaration). */
  function CheckStateOrdinal(s: CheckBoxState): (n: nat)
    ensures n < 3
  {
    match s
    case Unchecked => 0
    case Checked => 1
    case Undetermined => 2
  }

  function Max(a: real, b: real): (m: real)
    ensures m >= a && m >= b && (m == a || m == b)
  {
    if a >= b then a else b
  }

  function Abs(a: real): (m: real)
    ensures m >= 0.0 && (m == a || m == -a)
  {
    if a >= 0.0 then a else -a
  }
}
