/**
 * The designer-facing layer of the toggle panel: the slot object that keeps a
 * cached layout and mirrors it into the live slate slot when one is attached,
 * and the panel widget that builds the slate panel from its slots, answers
 * geometry queries for the designer and re-broadcasts check-state changes.
 */
module UmgToggle {
  import opened SlateTypes
  import opened ToggleDefine
  import opened GridSnap
  import opened SlotLayout
  import opened Arrangement
  import opened Rebase
  import opened SlatePanel

  /** The layout a new designer slot starts with. */
  const DefaultLayout := AnchorData(Margin(0.0, 0.0, 100.0, 30.0), PointAnchors(0.0, 0.0), Vec2(0.0, 0.0))

  /** A snapshot of every field of a designer slot, used to say what a method leaves alone. */
  datatype SlotFields = SlotFields(
    layoutData: AnchorData,
    autoSize: bool,
    zOrder: int,
    slotType: SlotType,
    content: Widget?,
    parent: Toggle?,
    slot: Slot?,
    preEditGeometry: Rect,
    preEditLayoutData: AnchorData,
    desiredPosition: Option<Vec2>)

  /** A snapshot of every field of the panel widget, used to say what a method leaves alone. */
  datatype ToggleFields = ToggleFields(
    checkedState: CheckBoxState,
    checkedStateDelegate: Option<CheckBoxState>,
    isFocusable: bool,
    slots: seq<ToggleSlot?>,
    myToggle: Panel?,
    broadcasts: seq<(CheckBoxState, CheckBoxState)>)

  /** The widget a slot shows: its content, or the shared null widget when it has none. */
  function ContentOrNull(content: Widget?, nullWidget: Widget): (w: Widget)
    ensures content != null ==> w == content
    ensures content == null ==> w == nullWidget
  {
    if content == null then nullWidget else content
  }

  /**
   * Where a nudge goes: the old position moved by `dir`, each moved axis
   * snapped to the grid when one is set, and on each stretched axis the size
   * shrunk by as much as the position grew.
   */
  method NudgeTarget(oldPosition: Vec2, oldSize: Vec2, anchors: Anchors, dir: Vec2, grid: Option<int>)
    returns (newPosition: Vec2, newSize: Vec2)
    requires grid.Some? ==> grid.value != 0
    ensures newPosition == NudgedPosition(oldPosition, dir, grid)
    ensures newSize == NudgedSize(oldPosition, newPosition, oldSize, anchors)
  {
    newPosition := Vec2(oldPosition.x + dir.x, oldPosition.y + dir.y);
    if grid.Some? {
      if dir.x != 0.0 {
        newPosition := newPosition.(x := SnapToGrid(newPosition.x, grid.value));
      }
      if dir.y != 0.0 {
        newPosition := newPosition.(y := SnapToGrid(newPosition.y, grid.value));
      }
    }
    assert newPosition == NudgedPosition(oldPosition, dir, grid);
    newSize := oldSize;
    if IsStretchedHorizontal(anchors) {
      newSize := newSize.(x := newSize.x - (newPosition.x - oldPosition.x));
    }
    if IsStretchedVertical(anchors) {
      newSize := newSize.(y := newSize.y - (newPosition.y - oldPosition.y));
    }
  }

  class ToggleSlot {
    /** The cached layout, kept even while no slate slot is attached. */
    var layoutData: AnchorData
    var autoSize: bool
    var zOrder: int
    var slotType: SlotType
    /** The child's widget; its slate widget is taken to be the same object. */
    var content: Widget?
    /** The owning toggle panel; null when there is none or the owner is another kind of panel. */
    var parent: Toggle?
    /** The live slate slot, when the panel has been built. */
    var slot: Slot?
    var preEditGeometry: Rect
    var preEditLayoutData: AnchorData
    var desiredPosition: Option<Vec2>

    /** A new slot holds the default layout and is attached to nothing. */
    constructor(content: Widget?)
      ensures layoutData == DefaultLayout && !autoSize && zOrder == 0 && slotType == SlotType.Other
      ensures this.content == content && parent == null && slot == null && desiredPosition.None?
    {
      layoutData := DefaultLayout;
      autoSize := false;
      zOrder := 0;
      slotType := SlotType.Other;
      this.content := content;
      parent := null;
      slot := null;
      preEditGeometry := Rect(Vec2(0.0, 0.0), Vec2(0.0, 0.0));
      preEditLayoutData := AnchorData(Margin(0.0, 0.0, 0.0, 0.0), PointAnchors(0.0, 0.0), Vec2(0.0, 0.0));
      desiredPosition := None;
    }

    function Fields(): SlotFields
      reads this
    {
      SlotFields(layoutData, autoSize, zOrder, slotType, content, parent, slot,
                 preEditGeometry, preEditLayoutData, desiredPosition)
    }

    /** The cached attributes, in the form the slate slot holds them. */
    function CachedAttrs(): SlotAttrs
      reads this
    {
      SlotAttrs(layoutData.offsets, layoutData.anchors, layoutData.alignment, autoSize, zOrder as real, slotType)
    }

    /** The attached slate slot, if any, holds exactly the cached attributes. */
    predicate Synced()
      reads this, slot
    {
      slot != null ==> slot.Attrs() == CachedAttrs()
    }

    /** The cached layout; while synced it is what the live slot reports. */
    function GetLayout(): (d: AnchorData)
      reads this, slot
      ensures Synced() ==> d.offsets == GetOffsets() && d.anchors == GetAnchors() && d.alignment == GetAlignment()
    {
      layoutData
    }

    function GetPosition(): (p: Vec2)
      reads this, slot
      ensures Synced() ==> p == Vec2(layoutData.offsets.left, layoutData.offsets.top)
    {
      var o := if slot != null then slot.offset else layoutData.offsets;
      Vec2(o.left, o.top)
    }

    function GetSize(): (s: Vec2)
      reads this, slot
      ensures Synced() ==> s == Vec2(layoutData.offsets.right, layoutData.offsets.bottom)
    {
      var o := if slot != null then slot.offset else layoutData.offsets;
      Vec2(o.right, o.bottom)
    }

    function GetOffsets(): (o: Margin)
      reads this, slot
      ensures Synced() ==> o == layoutData.offsets
    {
      if slot != null then slot.offset else layoutData.offsets
    }

    function GetAnchors(): (a: Anchors)
      reads this, slot
      ensures Synced() ==> a == layoutData.anchors
    {
      if slot != null then slot.anchors else layoutData.anchors
    }

    function GetAlignment(): (a: Vec2)
      reads this, slot
      ensures Synced() ==> a == layoutData.alignment
    {
      if slot != null then slot.alignment else layoutData.alignment
    }

    function GetAutoSize(): (b: bool)
      reads this, slot
      ensures Synced() ==> b == autoSize
    {
      if slot != null then slot.autoSize else autoSize
    }

    /** The slate slot stores the z-order as a float; reading it back truncates toward zero. */
    function GetZOrder(): (z: int)
      reads this, slot
      ensures Synced() ==> z == zOrder
      ensures slot != null ==> z == Trunc(slot.zOrder)
    {
      if slot != null then Trunc(slot.zOrder) else zOrder
    }

    function GetSlotType(): (t: SlotType)
      reads this, slot
      ensures Synced() ==> t == slotType
    {
      if slot != null then slot.slotType else slotType
    }

    /** Replaces the whole cached layout and pushes offsets, anchors and alignment to the slate slot. */
    method SetLayout(d: AnchorData)
      modifies this, slot
      ensures Fields() == old(Fields()).(layoutData := d)
      ensures slot != null ==> slot.widget == old(slot.widget)
                               && slot.Attrs() == old(slot.Attrs()).(offset := d.offsets, anchors := d.anchors,
                                                                     alignment := d.alignment)
      ensures old(Synced()) ==> Synced()
      ensures GetLayout() == d && GetOffsets() == d.offsets && GetAnchors() == d.anchors && GetAlignment() == d.alignment
    {
      layoutData := d;
      if slot != null {
        var s := slot.WithOffset(layoutData.offsets);
        s := slot.WithAnchors(layoutData.anchors);
        s := slot.WithAlignment(layoutData.alignment);
      }
    }

    /** Writes the left and top offsets and pushes all offsets to the slate slot. */
    method SetPosition(p: Vec2)
      modifies this, slot
      ensures Fields() == old(Fields()).(layoutData := old(layoutData).(offsets :=
                old(layoutData.offsets).(left := p.x, top := p.y)))
      ensures slot != null ==> slot.widget == old(slot.widget)
                               && slot.Attrs() == old(slot.Attrs()).(offset := layoutData.offsets)
      ensures old(Synced()) ==> Synced()
      ensures GetPosition() == p
      ensures slot == null || old(GetOffsets()) == old(layoutData.offsets) ==> GetSize() == old(GetSize())
    {
      layoutData := layoutData.(offsets := layoutData.offsets.(left := p.x, top := p.y));
      if slot != null {
        var s := slot.WithOffset(layoutData.offsets);
      }
    }

    /** Writes the right and bottom offsets and pushes all offsets to the slate slot. */
    method SetSize(z: Vec2)
      modifies this, slot
      ensures Fields() == old(Fields()).(layoutData := old(layoutData).(offsets :=
                old(layoutData.offsets).(right := z.x, bottom := z.y)))
      ensures slot != null ==> slot.widget == old(slot.widget)
                               && slot.Attrs() == old(slot.Attrs()).(offset := layoutData.offsets)
      ensures old(Synced()) ==> Synced()
      ensures GetSize() == z
      ensures slot == null || old(GetOffsets()) == old(layoutData.offsets) ==> GetPosition() == old(GetPosition())
    {
      layoutData := layoutData.(offsets := layoutData.offsets.(right := z.x, bottom := z.y));
      if slot != null {
        var s := slot.WithOffset(layoutData.offsets);
      }
    }

    method SetOffsets(o: Margin)
      modifies this, slot
      ensures Fields() == old(Fields()).(layoutData := old(layoutData).(offsets := o))
      ensures slot != null ==> slot.widget == old(slot.widget) && slot.Attrs() == old(slot.Attrs()).(offset := o)
      ensures old(Synced()) ==> Synced()
      ensures GetOffsets() == o
    {
      layoutData := layoutData.(offsets := o);
      if slot != null {
        var s := slot.WithOffset(o);
      }
    }

    method SetAnchors(a: Anchors)
      modifies this, slot
      ensures Fields() == old(Fields()).(layoutData := old(layoutData).(anchors := a))
      ensures slot != null ==> slot.widget == old(slot.widget) && slot.Attrs() == old(slot.Attrs()).(anchors := a)
      ensures old(Synced()) ==> Synced()
      ensures GetAnchors() == a
    {
      layoutData := layoutData.(anchors := a);
      if slot != null {
        var s := slot.WithAnchors(a);
      }
    }

    method SetAlignment(a: Vec2)
      modifies this, slot
      ensures Fields() == old(Fields()).(layoutData := old(layoutData).(alignment := a))
      ensures slot != null ==> slot.widget == old(slot.widget) && slot.Attrs() == old(slot.Attrs()).(alignment := a)
      ensures old(Synced()) ==> Synced()
      ensures GetAlignment() == a
    {
      layoutData := layoutData.(alignment := a);
      if slot != null {
        var s := slot.WithAlignment(a);
      }
    }

    method SetAutoSize(b: bool)
      modifies this, slot
      ensures Fields() == old(Fields()).(autoSize := b)
      ensures slot != null ==> slot.widget == old(slot.widget) && slot.Attrs() == old(slot.Attrs()).(autoSize := b)
      ensures old(Synced()) ==> Synced()
      ensures GetAutoSize() == b
    {
      autoSize := b;
      if slot != null {
        var s := slot.WithAutoSize(b);
      }
    }

    method SetZOrder(z: int)
      modifies this, slot
      ensures Fields() == old(Fields()).(zOrder := z)
      ensures slot != null ==> slot.widget == old(slot.widget)
                               && slot.Attrs() == old(slot.Attrs()).(zOrder := z as real)
      ensures old(Synced()) ==> Synced()
      ensures GetZOrder() == z
    {
      zOrder := z;
      if slot != null {
        var s := slot.WithZOrder(z as real);
      }
    }

    method SetSlotType(t: SlotType)
      modifies this, slot
      ensures Fields() == old(Fields()).(slotType := t)
      ensures slot != null ==> slot.widget == old(slot.widget) && slot.Attrs() == old(slot.Attrs()).(slotType := t)
      ensures old(Synced()) ==> Synced()
      ensures GetSlotType() == t
    {
      slotType := t;
      if slot != null {
        var s := slot.WithSlotType(t);
      }
    }

    /** Replaces the minimum anchor corner only and pushes both corners to the slate slot. */
    method SetMinimum(m: Vec2)
      modifies this, slot
      ensures Fields() == old(Fields()).(layoutData := old(layoutData).(anchors := old(layoutData.anchors).(minimum := m)))
      ensures slot != null ==> slot.widget == old(slot.widget)
                               && slot.Attrs() == old(slot.Attrs()).(anchors := layoutData.anchors)
      ensures old(Synced()) ==> Synced()
    {
      layoutData := layoutData.(anchors := layoutData.anchors.(minimum := m));
      if slot != null {
        var s := slot.WithAnchors(layoutData.anchors);
      }
    }

    /** Replaces the maximum anchor corner only and pushes both corners to the slate slot. */
    method SetMaximum(m: Vec2)
      modifies this, slot
      ensures Fields() == old(Fields()).(layoutData := old(layoutData).(anchors := old(layoutData.anchors).(maximum := m)))
      ensures slot != null ==> slot.widget == old(slot.widget)
                               && slot.Attrs() == old(slot.Attrs()).(anchors := layoutData.anchors)
      ensures old(Synced()) ==> Synced()
    {
      layoutData := layoutData.(anchors := layoutData.anchors.(maximum := m));
      if slot != null {
        var s := slot.WithAnchors(layoutData.anchors);
      }
    }

    /** Pushes every cached attribute to the slate slot, leaving the cache as it is. */
    method SynchronizeProperties()
      modifies this, slot
      ensures Fields() == old(Fields())
      ensures slot != null ==> slot.widget == old(slot.widget)
      ensures Synced()
    {
      SetOffsets(layoutData.offsets);
      SetAnchors(layoutData.anchors);
      SetAlignment(layoutData.alignment);
      SetAutoSize(autoSize);
      SetZOrder(zOrder);
      SetSlotType(slotType);
    }

    /** Forgets the slate slot. */
    method ReleaseSlateResources()
      modifies this
      ensures Fields() == old(Fields()).(slot := null)
    {
      slot := null;
    }

    /**
     * Appends a slate slot for this child to `panel`, holding the content or
     * the null widget, and brings it in line with the cache.
     */
    method BuildSlot(panel: Panel)
      modifies this, panel
      ensures fresh(slot) && Fields() == old(Fields()).(slot := slot)
      ensures panel.State() == old(panel.State()).(children := old(panel.children) + [slot])
      ensures slot.widget == ContentOrNull(content, panel.nullWidget)
      ensures Synced()
    {
      var s := panel.AddSlot();
      s := s.WithContent(if content == null then panel.nullWidget else content);
      slot := s;
      SynchronizeProperties();
    }

    /**
     * Moves the child by `dir`, snapping each moved axis to the grid when one
     * is set; a stretched axis gives up as much size as its position moved.
     * Reports whether anything changed, and changes nothing when not.
     */
    method NudgeByDesigner(dir: Vec2, grid: Option<int>) returns (changed: bool)
      requires grid.Some? ==> grid.value != 0
      modifies this, slot
      ensures var oldPos := old(GetPosition());
              var oldSize := old(GetSize());
              var newPos := NudgedPosition(oldPos, dir, grid);
              var newSize := NudgedSize(oldPos, newPos, oldSize, old(GetAnchors()));
              changed == (newPos != oldPos || newSize != oldSize)
      ensures var oldPos := old(GetPosition());
              var newPos := NudgedPosition(oldPos, dir, grid);
              var newSize := NudgedSize(oldPos, newPos, old(GetSize()), old(GetAnchors()));
              changed ==> GetPosition() == newPos && GetSize() == newSize
                          && Fields() == old(Fields()).(layoutData := old(layoutData).(offsets :=
                               Margin(newPos.x, newPos.y, newSize.x, newSize.y)))
      ensures !changed ==> Fields() == old(Fields())
      ensures slot != null ==> slot.widget == old(slot.widget) && slot.anchors == old(slot.anchors)
      ensures slot != null ==> slot.Attrs() == old(slot.Attrs()).(offset := if changed then layoutData.offsets
                                                                          else old(slot.offset))
      ensures old(Synced()) ==> Synced()
    {
      var oldPosition := GetPosition();
      var oldSize := GetSize();
      var newPosition, newSize := NudgeTarget(oldPosition, oldSize, GetAnchors(), dir, grid);
      if oldPosition == newPosition && oldSize == newSize {
        return false;
      }
      SetPosition(newPosition);
      SetSize(newSize);
      return true;
    }

    /**
     * Previews a dragged-in child at the cursor: at least the minimum default
     * size, and the cursor snapped per axis to that axis's grid when set.
     */
    method DragDropPreviewByDesigner(cursor: Vec2, xGrid: Option<int>, yGrid: Option<int>) returns (changed: bool)
      requires content != null
      requires xGrid.Some? ==> xGrid.value != 0
      requires yGrid.Some? ==> yGrid.value != 0
      modifies this, slot
      ensures var newPos := DropPosition(cursor, xGrid, yGrid);
              var newSize := DropSize(old(content).desiredSize);
              && changed == (old(GetSize()) != newSize || old(GetPosition()) != newPos)
              && (changed ==> GetPosition() == newPos && GetSize() == newSize
                              && Fields() == old(Fields()).(layoutData := old(layoutData).(offsets :=
                                   Margin(newPos.x, newPos.y, newSize.x, newSize.y))))
      ensures !changed ==> Fields() == old(Fields())
      ensures slot != null ==> slot.widget == old(slot.widget) && slot.anchors == old(slot.anchors)
      ensures slot != null ==> slot.Attrs() == old(slot.Attrs()).(offset := if changed then layoutData.offsets
                                                                          else old(slot.offset))
      ensures old(Synced()) ==> Synced()
    {
      var widgetDesiredSize := content.desiredSize;
      var localSize := Vec2(Max(widgetDesiredSize.x, MinimumDefaultSize.x), Max(widgetDesiredSize.y, MinimumDefaultSize.y));
      var newPosition := cursor;
      if xGrid.Some? {
        newPosition := newPosition.(x := SnapToGrid(newPosition.x, xGrid.value));
      }
      if yGrid.Some? {
        newPosition := newPosition.(y := SnapToGrid(newPosition.y, yGrid.value));
      }
      if GetSize() == localSize && GetPosition() == newPosition {
        return false;
      }
      SetPosition(newPosition);
      SetSize(localSize);
      return true;
    }

    /**
     * Copies the template slot's position and size. The size is read after
     * the position is written, which pushes this slot's cached offsets to its
     * slate slot; so when the template is this slot or shares its slate slot,
     * the size copied is this slot's cached size.
     */
    method SynchronizeFromTemplate(template: ToggleSlot)
      modifies this, slot
      ensures var aliased := template == this || (template.slot != null && template.slot == slot);
              var size := if aliased then Vec2(old(layoutData.offsets.right), old(layoutData.offsets.bottom))
                          else old(template.GetSize());
              && GetPosition() == old(template.GetPosition()) && GetSize() == size
              && Fields() == old(Fields()).(layoutData := old(layoutData).(offsets :=
                   Margin(old(template.GetPosition()).x, old(template.GetPosition()).y, size.x, size.y)))
      ensures template != this && (template.slot == null || template.slot != slot) ==>
                GetPosition() == old(template.GetPosition()) && GetSize() == old(template.GetSize())
      ensures slot != null ==> slot.widget == old(slot.widget)
                               && slot.Attrs() == old(slot.Attrs()).(offset := layoutData.offsets)
      ensures old(Synced()) ==> Synced()
    {
      SetPosition(template.GetPosition());
      SetSize(template.GetSize());
    }

    /** Records a position the next rebase should move the child to. */
    method SetDesiredPosition(p: Vec2)
      modifies this
      ensures Fields() == old(Fields()).(desiredPosition := Some(p))
    {
      desiredPosition := Some(p);
    }

    /** Saves the current geometry and layout as the base of the next rebase, when the panel can report it. */
    method SaveBaseLayout()
      modifies this
      ensures old(parent) == null || old(parent.SlotGeometry(content)).None? ==> Fields() == old(Fields())
      ensures old(parent) != null && old(parent.SlotGeometry(content)).Some? ==>
                Fields() == old(Fields()).(preEditGeometry := old(parent.SlotGeometry(content)).value,
                                           preEditLayoutData := old(layoutData))
    {
      var toggle := parent;
      if toggle != null {
        var found, geometry := toggle.GetGeometryForSlot(this);
        if found {
          preEditGeometry := geometry;
          preEditLayoutData := layoutData;
        }
      }
    }

    /** The rebase proper: picks the branch by what the edit changed. */
    method ApplyRebase(canvasSize: Vec2, preserveSize: bool)
      modifies this
      ensures var r := old(RebasedLayout(layoutData, preEditLayoutData, preEditGeometry, canvasSize,
                                         desiredPosition, preserveSize));
              Fields() == old(Fields()).(layoutData := r.0, desiredPosition := r.1)
    {
      var anchorsMoved := preEditLayoutData.anchors.minimum != layoutData.anchors.minimum
                          || preEditLayoutData.anchors.maximum != layoutData.anchors.maximum;
      var moved := preEditLayoutData.offsets.left != layoutData.offsets.left
                   || preEditLayoutData.offsets.top != layoutData.offsets.top;
      if anchorsMoved {
        RebaseAfterAnchorsMoved(canvasSize, preserveSize);
      } else if desiredPosition.Some? {
        RebaseToDesiredPosition(canvasSize);
      } else if moved {
        RebaseAfterMove(canvasSize);
      }
    }

    /** After an anchor change: each axis is rewritten so the child keeps its pre-edit place. */
    method RebaseAfterAnchorsMoved(canvasSize: Vec2, preserveSize: bool)
      modifies this
      ensures Fields() == old(Fields()).(layoutData := WithAxes(old(layoutData),
                AnchorsMovedAxis(Horizontal(old(layoutData)), IsStretchedHorizontal(old(preEditLayoutData.anchors)),
                                 old(preEditGeometry.position.x), old(preEditGeometry.size.x), canvasSize.x, preserveSize),
                AnchorsMovedAxis(Vertical(old(layoutData)), IsStretchedVertical(old(preEditLayoutData.anchors)),
                                 old(preEditGeometry.position.y), old(preEditGeometry.size.y), canvasSize.y, preserveSize)))
    {
      var anchorPositions := Margin(
        layoutData.anchors.minimum.x * canvasSize.x, layoutData.anchors.minimum.y * canvasSize.y,
        layoutData.anchors.maximum.x * canvasSize.x, layoutData.anchors.maximum.y * canvasSize.y);
      var alignmentOffset := Vec2(layoutData.alignment.x * preEditGeometry.size.x,
                                  layoutData.alignment.y * preEditGeometry.size.y);
      var leftTopDelta := Vec2(preEditGeometry.position.x - anchorPositions.left,
                               preEditGeometry.position.y - anchorPositions.top);
      var o := layoutData.offsets;
      if !IsStretchedHorizontal(layoutData.anchors) && IsStretchedHorizontal(preEditLayoutData.anchors) {
        o := o.(left := leftTopDelta.x + alignmentOffset.x, right := preEditGeometry.size.x);
      } else if !preserveSize && IsStretchedHorizontal(layoutData.anchors)
                && !IsStretchedHorizontal(preEditLayoutData.anchors) {
        o := o.(left := 0.0, right := 0.0);
      } else if IsStretchedHorizontal(layoutData.anchors) {
        o := o.(left := leftTopDelta.x);
        o := o.(right := anchorPositions.right - (anchorPositions.left + o.left + preEditGeometry.size.x));
      } else {
        o := o.(left := leftTopDelta.x + alignmentOffset.x);
      }
      if !IsStretchedVertical(layoutData.anchors) && IsStretchedVertical(preEditLayoutData.anchors) {
        o := o.(top := leftTopDelta.y + alignmentOffset.y, bottom := preEditGeometry.size.y);
      } else if !preserveSize && IsStretchedVertical(layoutData.anchors)
                && !IsStretchedVertical(preEditLayoutData.anchors) {
        o := o.(top := 0.0, bottom := 0.0);
      } else if IsStretchedVertical(layoutData.anchors) {
        o := o.(top := leftTopDelta.y);
        o := o.(bottom := anchorPositions.bottom - (anchorPositions.top + o.top + preEditGeometry.size.y));
      } else {
        o := o.(top := leftTopDelta.y + alignmentOffset.y);
      }
      layoutData := layoutData.(offsets := o);
    }

    /** Towards a pending desired position, which is then consumed. */
    method RebaseToDesiredPosition(canvasSize: Vec2)
      requires desiredPosition.Some?
      modifies this
      ensures Fields() == old(Fields()).(desiredPosition := None, layoutData := WithAxes(old(layoutData),
                DesiredAxis(Horizontal(old(layoutData)), old(desiredPosition.value.x), old(preEditLayoutData.offsets.left),
                            old(preEditGeometry.size.x), canvasSize.x),
                DesiredAxis(Vertical(old(layoutData)), old(desiredPosition.value.y), old(preEditLayoutData.offsets.top),
                            old(preEditGeometry.size.y), canvasSize.y)))
    {
      var anchorPositions := Margin(
        layoutData.anchors.minimum.x * canvasSize.x, layoutData.anchors.minimum.y * canvasSize.y,
        layoutData.anchors.maximum.x * canvasSize.x, layoutData.anchors.maximum.y * canvasSize.y);
      var alignmentOffset := Vec2(layoutData.alignment.x * preEditGeometry.size.x,
                                  layoutData.alignment.y * preEditGeometry.size.y);
      var newLocalPosition := desiredPosition.value;
      var o := layoutData.offsets;
      o := o.(left := newLocalPosition.x - anchorPositions.left, top := newLocalPosition.y - anchorPositions.top);
      if IsStretchedHorizontal(layoutData.anchors) {
        o := o.(right := o.right - (o.left - preEditLayoutData.offsets.left));
      } else {
        o := o.(left := o.left + alignmentOffset.x);
      }
      if IsStretchedVertical(layoutData.anchors) {
        o := o.(bottom := o.bottom - (o.top - preEditLayoutData.offsets.top));
      } else {
        o := o.(top := o.top + alignmentOffset.y);
      }
      layoutData := layoutData.(offsets := o);
      desiredPosition := None;
    }

    /** After the near offsets were typed in as positions: re-expressed against the near anchors. */
    method RebaseAfterMove(canvasSize: Vec2)
      modifies this
      ensures Fields() == old(Fields()).(layoutData := WithAxes(old(layoutData),
                MovedAxis(Horizontal(old(layoutData)), old(preEditGeometry.size.x), canvasSize.x),
                MovedAxis(Vertical(old(layoutData)), old(preEditGeometry.size.y), canvasSize.y)))
    {
      var defaultAnchorPosition := Vec2(layoutData.anchors.minimum.x * canvasSize.x,
                                        layoutData.anchors.minimum.y * canvasSize.y);
      var alignmentOffset := Vec2(layoutData.alignment.x * preEditGeometry.size.x,
                                  layoutData.alignment.y * preEditGeometry.size.y);
      var o := layoutData.offsets;
      o := o.(left := o.left - defaultAnchorPosition.x, top := o.top - defaultAnchorPosition.y);
      if !IsStretchedHorizontal(layoutData.anchors) {
        o := o.(left := o.left + alignmentOffset.x);
      }
      if !IsStretchedVertical(layoutData.anchors) {
        o := o.(top := o.top + alignmentOffset.y);
      }
      layoutData := layoutData.(offsets := o);
    }

    /**
     * Re-expresses the offsets after an edit so that the child keeps its
     * place, when the owning toggle can report the child's geometry, then
     * pushes the cache to the slate slot. Without a toggle parent nothing
     * happens.
     */
    method RebaseLayout(preserveSize: bool)
      modifies this, slot
      ensures parent == old(parent) && slot == old(slot)
      ensures old(parent) == null ==> Fields() == old(Fields()) && (slot != null ==> slot.Attrs() == old(slot.Attrs()))
      ensures old(parent) != null ==> Synced()
      ensures old(parent) != null && old(parent.SlotGeometry(content)).None? ==> Fields() == old(Fields())
      ensures old(parent) != null && old(parent.SlotGeometry(content)).Some? ==>
                var r := old(RebasedLayout(layoutData, preEditLayoutData, preEditGeometry,
                                           parent.myToggle.cachedSize, desiredPosition, preserveSize));
                Fields() == old(Fields()).(layoutData := r.0, desiredPosition := r.1)
      ensures slot != null ==> slot.widget == old(slot.widget)
    {
      var toggle := parent;
      if toggle != null {
        var found, geometry := toggle.GetGeometryForSlot(this);
        if found {
          ApplyRebase(toggle.myToggle.cachedSize, preserveSize);
        }
        SynchronizeProperties();
      }
    }

    /** Before a property edit: remember the layout the edit starts from. */
    method PreEditChange()
      modifies this
      ensures old(parent) == null || old(parent.SlotGeometry(content)).None? ==> Fields() == old(Fields())
      ensures old(parent) != null && old(parent.SlotGeometry(content)).Some? ==>
                Fields() == old(Fields()).(preEditGeometry := old(parent.SlotGeometry(content)).value,
                                           preEditLayoutData := old(layoutData))
    {
      SaveBaseLayout();
    }

    /**
     * After a property edit: push the cache to the slate slot and, when the
     * edited property was the anchors, rebase with the size preserved.
     */
    method PostEditChangeChainProperty(anchorsEdited: bool)
      modifies this, slot
      ensures Synced() && slot == old(slot)
      ensures slot != null ==> slot.widget == old(slot.widget)
      ensures !anchorsEdited || old(parent) == null ==> Fields() == old(Fields())
      ensures anchorsEdited && old(parent) != null && old(parent.myToggle) == null ==> Fields() == old(Fields())
      ensures anchorsEdited && old(parent) != null && old(parent.myToggle) != null ==>
                var r := old(RebasedLayout(layoutData, preEditLayoutData, preEditGeometry,
                                           parent.myToggle.cachedSize, desiredPosition, true));
                || Fields() == old(Fields())
                || Fields() == old(Fields()).(layoutData := r.0, desiredPosition := r.1)
    {
      SynchronizeProperties();
      if anchorsEdited {
        RebaseLayout(true);
      }
    }
  }

  /** The index of the first arranged widget that is `w`, or -1 when none is. */
  function FirstIndexOf(arranged: seq<ArrangedWidget>, w: Widget): (k: int)
    ensures -1 <= k < |arranged|
    ensures k >= 0 ==> arranged[k].widget == w && forall j :: 0 <= j < k ==> arranged[j].widget != w
    ensures k == -1 ==> forall j :: 0 <= j < |arranged| ==> arranged[j].widget != w
  {
    if arranged == [] then -1
    else if arranged[0].widget == w then 0
    else
      var k := FirstIndexOf(arranged[1..], w);
      if k < 0 then -1 else k + 1
  }

  /** The first match is the first index holding `w` with none before it. */
  lemma FirstIndexOfAt(arranged: seq<ArrangedWidget>, w: Widget, i: int)
    requires 0 <= i < |arranged| && arranged[i].widget == w
    requires forall j :: 0 <= j < i ==> arranged[j].widget != w
    ensures FirstIndexOf(arranged, w) == i
  {
  }

  /** The search over the arranged children: the geometry of the first that is `w`, or `unfound`. */
  method FindArranged(arranged: seq<ArrangedWidget>, w: Widget, unfound: Rect) returns (found: bool, geometry: Rect)
    ensures found <==> FirstIndexOf(arranged, w) >= 0
    ensures geometry == if found then arranged[FirstIndexOf(arranged, w)].geometry else unfound
  {
    var childIndex := 0;
    while childIndex < |arranged|
      invariant 0 <= childIndex <= |arranged|
      invariant forall j :: 0 <= j < childIndex ==> arranged[j].widget != w
    {
      if arranged[childIndex].widget == w {
        FirstIndexOfAt(arranged, w, childIndex);
        return true, arranged[childIndex].geometry;
      }
      childIndex := childIndex + 1;
    }
    return false, unfound;
  }

  class Toggle {
    var checkedState: CheckBoxState
    /** What the bound check-state getter reports, or None when no getter is bound. */
    var checkedStateDelegate: Option<CheckBoxState>
    var isFocusable: bool
    /** The panel's slots in order; an entry of another slot kind is null. */
    var slots: seq<ToggleSlot?>
    /** The live slate panel, once built. */
    var myToggle: Panel?
    /** The (previous, new) pairs broadcast to listeners of check-state changes, oldest first. */
    var broadcasts: seq<(CheckBoxState, CheckBoxState)>

    constructor(slots: seq<ToggleSlot?>)
      ensures State() == ToggleFields(CheckBoxState.Unchecked, None, false, slots, null, [])
    {
      this.slots := slots;
      myToggle := null;
      broadcasts := [];
      checkedState := CheckBoxState.Unchecked;
      checkedStateDelegate := None;
      isFocusable := false;
    }

    function State(): ToggleFields
      reads this
    {
      ToggleFields(checkedState, checkedStateDelegate, isFocusable, slots, myToggle, broadcasts)
    }

    /**
     * The check-state attribute the panel widget hands to the slate panel:
     * bound to the getter when one is bound, the stored state otherwise.
     */
    function CheckedStateBinding(): (attr: CheckStateAttr)
      reads this
      ensures attr.Bound? <==> checkedStateDelegate.Some?
      ensures attr.Get() == if checkedStateDelegate.Some? then checkedStateDelegate.value else checkedState
    {
      if checkedStateDelegate.Some? then Bound(checkedStateDelegate.value) else Literal(checkedState)
    }

    /**
     * The geometry the live panel gives a slot's content when arranged with
     * every visibility accepted: that of the first arranged widget that is
     * the content.
     */
    function SlotGeometry(content: Widget?): (g: Option<Rect>)
      reads this, myToggle, if myToggle != null then myToggle.children else []
      ensures g.Some? ==> content != null && myToggle != null
    {
      if content == null || myToggle == null then None
      else
        var arranged := myToggle.ArrangedWidgets(myToggle.cachedSize, AllVisibilities);
        var k := FirstIndexOf(arranged, content);
        if k < 0 then None else Some(arranged[k].geometry)
    }

    /**
     * A found geometry is the layout formula's rectangle for a child holding
     * the content, and that child's tag matches the current check state.
     */
    lemma FoundGeometryIsLayout(content: Widget?)
      requires SlotGeometry(content).Some?
      ensures exists i ::
                && 0 <= i < |myToggle.children|
                && myToggle.children[i].widget == content
                && SlotGeometry(content).value == ArrangeChild(myToggle.children[i].View(), myToggle.cachedSize)
                && IsSameWithCheckState(myToggle.children[i].slotType, myToggle.CheckState())
    {
      var arranged := myToggle.ArrangedWidgets(myToggle.cachedSize, AllVisibilities);
      var k := FirstIndexOf(arranged, content);
      myToggle.ArrangedOnlyMatching(myToggle.cachedSize, AllVisibilities, k);
    }

    /** A slot whose content no child of the current state holds has no geometry. */
    lemma UnmatchedSlotHasNoGeometry(content: Widget?)
      requires myToggle != null
      requires forall i :: 0 <= i < |myToggle.children| && myToggle.children[i].widget == content ==>
                 !IsSameWithCheckState(myToggle.children[i].slotType, myToggle.CheckState())
      ensures SlotGeometry(content).None?
    {
      if SlotGeometry(content).Some? {
        FoundGeometryIsLayout(content);
      }
    }

    /** Looks the slot's content up among the live panel's arranged children. */
    method GetGeometryForSlot(s: ToggleSlot) returns (found: bool, geometry: Rect)
      ensures found <==> SlotGeometry(s.content).Some?
      ensures found ==> geometry == SlotGeometry(s.content).value
    {
      geometry := Rect(Vec2(0.0, 0.0), Vec2(0.0, 0.0));
      var content := s.content;
      if content == null {
        return false, geometry;
      }
      var canvas := myToggle;
      if canvas != null {
        var arranged := canvas.OnArrangeChildren(canvas.cachedSize, AllVisibilities);
        found, geometry := FindArranged(arranged, content, geometry);
        return;
      }
      return false, geometry;
    }

    /** Records the new state and broadcasts the (previous, new) pair. */
    method SlateOnToggleCheckeStateChanged(newState: CheckBoxState)
      modifies this
      ensures State() == old(State()).(checkedState := newState,
                                       broadcasts := old(broadcasts) + [(old(checkedState), newState)])
    {
      var last := checkedState;
      checkedState := newState;
      broadcasts := broadcasts + [(last, newState)];
    }

    /** Pushes the check-state binding into the live panel, if there is one. */
    method SynchronizeProperties()
      modifies myToggle
      ensures myToggle != null ==> myToggle.State() == old(myToggle.State()).(isToggleChecked := CheckedStateBinding())
    {
      if myToggle != null {
        myToggle.SetToggleIsChecked(CheckedStateBinding());
      }
    }

    /** Drops the live panel. */
    method ReleaseSlateResources()
      modifies this
      ensures State() == old(State()).(myToggle := null)
    {
      myToggle := null;
    }

    /** Builds a newly added slot into the live panel, if there is one. */
    method OnSlotAdded(s: ToggleSlot)
      modifies s, myToggle
      ensures myToggle == null ==> s.Fields() == old(s.Fields())
      ensures myToggle != null ==>
                && fresh(s.slot) && s.Fields() == old(s.Fields()).(slot := s.slot)
                && myToggle.State() == old(myToggle.State()).(children := old(myToggle.children) + [s.slot])
                && s.slot.widget == ContentOrNull(s.content, myToggle.nullWidget)
                && s.Synced()
    {
      if myToggle != null {
        s.BuildSlot(myToggle);
      }
    }

    /** Removes the removed slot's widget from the live panel, if there is one and the slot has content. */
    method OnSlotRemoved(s: ToggleSlot)
      modifies myToggle
      ensures myToggle != null && s.content == null ==> myToggle.State() == old(myToggle.State())
      ensures myToggle != null && s.content != null ==>
                || (myToggle.State() == old(myToggle.State())
                    && forall j :: 0 <= j < |myToggle.children| ==> myToggle.children[j].widget != s.content)
                || (exists i ::
                      && 0 <= i < |old(myToggle.children)|
                      && old(myToggle.children)[i].widget == s.content
                      && (forall j :: 0 <= j < i ==> old(myToggle.children)[j].widget != s.content)
                      && myToggle.State() == old(myToggle.State()).(children := old(myToggle.children)[..i] + old(myToggle.children)[i + 1..]))
    {
      if myToggle != null {
        if s.content != null {
          var index := myToggle.RemoveSlot(s.content);
        }
      }
    }

    /**
     * Builds a fresh slate panel showing the stored check state, with the
     * state-change delegate bound, and builds every slot of this kind into
     * it in order, making this toggle the slot's parent. The k-th slot of
     * this kind gets the k-th child of the new panel; a slot listed twice
     * keeps the child built for its last entry.
     */
    method RebuildWidget(nullWidget: Widget, explicitChildZOrder: bool) returns (panel: Panel)
      modifies this, slots
      ensures fresh(panel) && State() == old(State()).(myToggle := panel)
      ensures panel.State() == PanelFields(panel.children, Literal(checkedState), isFocusable, DownAndUp,
                                           false, true, [], Vec2(0.0, 0.0))
      ensures panel.nullWidget == nullWidget && panel.explicitChildZOrder == explicitChildZOrder
      ensures |panel.children| == BuiltBefore(slots, |slots|)
      ensures DistinctSlots(slots) ==> panel.children == SlateSlotsOf(slots, |slots|)
      ensures forall k :: 0 <= k < |slots| && slots[k] != null ==>
                slots[k].Fields() == old(slots[k].Fields()).(parent := this, slot := slots[k].slot)
      ensures forall k :: 0 <= k < |slots| && slots[k] != null ==> Attached(slots[k], this, panel)
    {
      var args := DefaultArguments.(isToggleChecked := Literal(checkedState), isFocusable := isFocusable,
                                    hasStateDelegate := true);
      panel := new Panel(args, nullWidget, explicitChildZOrder);
      myToggle := panel;
      BuildSlots(this, slots, panel);
    }
  }

  /**
   * A slot attached to `panel` by `owner`: `owner` is its parent, and its
   * slate slot is a child of the panel that holds its content and its
   * cached attributes.
   */
  predicate Attached(t: ToggleSlot, owner: Toggle, panel: Panel)
    reads t, t.slot, panel
  {
    && t.parent == owner
    && t.slot != null
    && t.slot in panel.children
    && t.slot.widget == ContentOrNull(t.content, panel.nullWidget)
    && t.Synced()
  }

  /**
   * The loop of the panel widget's rebuild: builds each slot of this kind in
   * `ss` into the empty `panel` in order, making `owner` its parent.
   */
  method BuildSlots(owner: Toggle, ss: seq<ToggleSlot?>, panel: Panel)
    requires panel.children == []
    modifies ss, panel
    ensures panel.State() == old(panel.State()).(children := panel.children)
    ensures |panel.children| == BuiltBefore(ss, |ss|)
    ensures forall k :: 0 <= k < |ss| && ss[k] != null ==>
              ss[k].Fields() == old(ss[k].Fields()).(parent := owner, slot := ss[k].slot)
    ensures forall k :: 0 <= k < |ss| && ss[k] != null ==> Attached(ss[k], owner, panel)
    ensures DistinctSlots(ss) ==> panel.children == SlateSlotsOf(ss, |ss|)
  {
    var i := 0;
    while i < |ss|
      invariant 0 <= i <= |ss|
      invariant panel.State() == old(panel.State()).(children := panel.children)
      invariant |panel.children| == BuiltBefore(ss, i)
      invariant forall k :: 0 <= k < |ss| && ss[k] != null ==>
                  ss[k].Fields().(parent := owner, slot := null) == old(ss[k].Fields()).(parent := owner, slot := null)
      invariant forall k :: 0 <= k < i && ss[k] != null ==> Attached(ss[k], owner, panel)
      invariant DistinctSlots(ss) ==> panel.children == SlateSlotsOf(ss, i)
    {
      AttachEntry(owner, ss, i, panel);
      i := i + 1;
    }
  }

  /** One pass of the rebuild loop: attaches the entry at `i` when it is a slot of this kind. */
  method AttachEntry(owner: Toggle, ss: seq<ToggleSlot?>, i: nat, panel: Panel)
    requires i < |ss|
    requires forall k :: 0 <= k < i && ss[k] != null ==> Attached(ss[k], owner, panel)
    requires |panel.children| == BuiltBefore(ss, i)
    requires DistinctSlots(ss) ==> panel.children == SlateSlotsOf(ss, i)
    modifies ss, panel
    ensures panel.State() == old(panel.State()).(children := panel.children)
    ensures forall k :: 0 <= k < |ss| && ss[k] != null ==>
              ss[k].Fields().(parent := owner, slot := null) == old(ss[k].Fields()).(parent := owner, slot := null)
    ensures forall k :: 0 <= k < i + 1 && ss[k] != null ==> Attached(ss[k], owner, panel)
    ensures |panel.children| == BuiltBefore(ss, i + 1)
    ensures DistinctSlots(ss) ==> panel.children == SlateSlotsOf(ss, i + 1)
  {
    var toggleSlot := ss[i];
    if toggleSlot != null {
      AttachSlot(owner, toggleSlot, panel);
    }
  }

  /** One step of the rebuild: makes `owner` the slot's parent and builds it into `panel`. */
  method AttachSlot(owner: Toggle, t: ToggleSlot, panel: Panel)
    modifies t, panel
    ensures Attached(t, owner, panel)
    ensures t.Fields() == old(t.Fields()).(parent := owner, slot := t.slot)
    ensures panel.children == old(panel.children) + [t.slot]
    ensures panel.State() == old(panel.State()).(children := panel.children)
  {
    t.parent := owner;
    t.BuildSlot(panel);
  }

  /** No slot object is listed twice. */
  predicate DistinctSlots(ss: seq<ToggleSlot?>)
  {
    forall a, b :: 0 <= a < b < |ss| && ss[a] != null ==> ss[a] != ss[b]
  }

  /** The slate slots of the slots of this kind among the first `i` entries, in order. */
  function SlateSlotsOf(ss: seq<ToggleSlot?>, i: nat): (r: seq<Slot?>)
    requires i <= |ss|
    reads set k | 0 <= k < i && ss[k] != null :: ss[k]
    ensures |r| == BuiltBefore(ss, i)
  {
    if i == 0 then []
    else SlateSlotsOf(ss, i - 1) + (if ss[i - 1] != null then [ss[i - 1].slot] else [])
  }

  /** How many of the first `k` entries of a slot list are slots of this kind. */
  function BuiltBefore(ss: seq<ToggleSlot?>, k: nat): (n: nat)
    requires k <= |ss|
    ensures n <= k
  {
    if k == 0 then 0 else BuiltBefore(ss, k - 1) + (if ss[k - 1] != null then 1 else 0)
  }
}
