/**
 * The Slate side of the toggle panel: its slots (each a bundle of layout
 * attributes around a child widget), the ordered slot collection, the
 * bindable check state, the arrangement pass and the desired-size pass.
 */
module SlatePanel {
  import opened SlateTypes
  import opened ToggleDefine
  import opened SlotLayout
  import opened Arrangement

  /**
   * A child widget. Only its identity, desired size and visibility matter to
   * the panel; the host framework computes the last two.
   */
  class Widget {
    const desiredSize: Vec2
    const visibility: Visibility

    constructor(desiredSize: Vec2, visibility: Visibility)
      ensures this.desiredSize == desiredSize && this.visibility == visibility
    {
      this.desiredSize := desiredSize;
      this.visibility := visibility;
    }
  }

  /** A child together with the geometry the arrangement gave it. */
  datatype ArrangedWidget = ArrangedWidget(widget: Widget, geometry: Rect)

  /**
   * The check-state attribute: either a plain value, or bound to an external
   * getter that currently yields `current`.
   */
  datatype CheckStateAttr = Literal(value: CheckBoxState) | Bound(current: CheckBoxState) {
    function Get(): CheckBoxState {
      if Literal? then value else current
    }
  }

  datatype ClickMethod = DownAndUp | MouseDown | MouseUp | PreciseClick

  /** Construction arguments: the declared slots in order and the behavioural settings. */
  datatype Arguments = Arguments(
    slots: seq<Slot>,
    isToggleChecked: CheckStateAttr,
    isFocusable: bool,
    clickMethod: ClickMethod,
    hasStateDelegate: bool)

  /** Arguments with nothing set explicitly: unchecked, focusable, no slots, no delegate. */
  const DefaultArguments := Arguments([], Literal(CheckBoxState.Unchecked), true, DownAndUp, false)

  /** The defaults report an unchecked literal state, focusable, no declared slots and no delegate. */
  lemma DefaultArgumentsUnset()
    ensures DefaultArguments.slots == []
    ensures DefaultArguments.isToggleChecked.Literal? && DefaultArguments.isToggleChecked.Get() == CheckBoxState.Unchecked
    ensures DefaultArguments.isFocusable && !DefaultArguments.hasStateDelegate
  {
  }

  /** A fresh slot: offset (0,0,1,1), anchors at (0,0), centred alignment, no auto-size, z-order 0, tag Other. */
  const DefaultSlotAttrs := SlotAttrs(Margin(0.0, 0.0, 1.0, 1.0), PointAnchors(0.0, 0.0), Vec2(0.5, 0.5),
                                      false, 0.0, SlotType.Other)

  /** One slot of the panel: layout attributes set through a chaining builder, and the child widget. */
  class Slot {
    var offset: Margin
    var anchors: Anchors
    var alignment: Vec2
    var autoSize: bool
    var zOrder: real
    var slotType: SlotType
    var widget: Widget

    /** A new slot holds the shared null widget until content is attached. */
    constructor(nullWidget: Widget)
      ensures Attrs() == DefaultSlotAttrs && widget == nullWidget
    {
      offset := Margin(0.0, 0.0, 1.0, 1.0);
      anchors := PointAnchors(0.0, 0.0);
      alignment := Vec2(0.5, 0.5);
      autoSize := false;
      zOrder := 0.0;
      slotType := SlotType.Other;
      widget := nullWidget;
    }

    function Attrs(): SlotAttrs
      reads this
    {
      SlotAttrs(offset, anchors, alignment, autoSize, zOrder, slotType)
    }

    function View(): SlotView
      reads this
    {
      SlotView(Attrs(), widget.desiredSize, widget.visibility)
    }

    method WithOffset(o: Margin) returns (self: Slot)
      modifies this
      ensures self == this && widget == old(widget)
      ensures Attrs() == old(Attrs()).(offset := o)
    {
      offset := o;
      self := this;
    }

    method WithAnchors(a: Anchors) returns (self: Slot)
      modifies this
      ensures self == this && widget == old(widget)
      ensures Attrs() == old(Attrs()).(anchors := a)
    {
      anchors := a;
      self := this;
    }

    method WithAlignment(a: Vec2) returns (self: Slot)
      modifies this
      ensures self == this && widget == old(widget)
      ensures Attrs() == old(Attrs()).(alignment := a)
    {
      alignment := a;
      self := this;
    }

    method WithAutoSize(b: bool) returns (self: Slot)
      modifies this
      ensures self == this && widget == old(widget)
      ensures Attrs() == old(Attrs()).(autoSize := b)
    {
      autoSize := b;
      self := this;
    }

    method WithZOrder(z: real) returns (self: Slot)
      modifies this
      ensures self == this && widget == old(widget)
      ensures Attrs() == old(Attrs()).(zOrder := z)
    {
      zOrder := z;
      self := this;
    }

    method WithSlotType(t: SlotType) returns (self: Slot)
      modifies this
      ensures self == this && widget == old(widget)
      ensures Attrs() == old(Attrs()).(slotType := t)
    {
      slotType := t;
      self := this;
    }

    /** Attaches the child widget (the slot's content operator). */
    method WithContent(w: Widget) returns (self: Slot)
      modifies this
      ensures self == this && widget == w
      ensures Attrs() == old(Attrs())
    {
      widget := w;
      self := this;
    }
  }

  /** Builder setters chain: each returns the slot it changed, so later setters see earlier ones. */
  method BuildChained(s: Slot, o: Margin, a: Anchors, z: real, t: SlotType) returns (r: Slot)
    modifies s
    ensures r == s && s.widget == old(s.widget)
    ensures s.Attrs() == old(s.Attrs()).(offset := o, anchors := a, zOrder := z, slotType := t)
  {
    r := s.WithOffset(o);
    r := r.WithAnchors(a);
    r := r.WithZOrder(z);
    r := r.WithSlotType(t);
  }

  /** The views of a sequence of slots, one per slot, in order. */
  function ViewsOf(cs: seq<Slot>): (vs: seq<SlotView>)
    reads cs
    ensures |vs| == |cs|
    ensures forall i :: 0 <= i < |cs| ==> vs[i] == cs[i].View()
    decreases |cs|
  {
    if cs == [] then [] else ViewsOf(cs[..|cs| - 1]) + [cs[|cs| - 1].View()]
  }

  /**
   * The arranged widgets of the given entries: each child's widget with its
   * computed geometry (an entry naming no child contributes nothing).
   */
  function PlaceEntries(cs: seq<Slot>, es: seq<ZEntry>, allotted: Vec2): (r: seq<ArrangedWidget>)
    reads cs
    ensures |r| <= |es|
    decreases |es|
  {
    if es == [] then []
    else
      var e := es[|es| - 1];
      PlaceEntries(cs, es[..|es| - 1], allotted)
        + (if 0 <= e.childIndex < |cs|
           then [ArrangedWidget(cs[e.childIndex].widget, ArrangeChild(cs[e.childIndex].View(), allotted))]
           else [])
  }

  /** When every entry names a child, the k-th arranged widget is the k-th entry's child with its geometry. */
  lemma {:induction false} PlaceEntriesAt(cs: seq<Slot>, es: seq<ZEntry>, allotted: Vec2, k: int)
    requires forall e :: e in es ==> 0 <= e.childIndex < |cs|
    requires 0 <= k < |es|
    ensures |PlaceEntries(cs, es, allotted)| == |es|
    ensures PlaceEntries(cs, es, allotted)[k]
      == ArrangedWidget(cs[es[k].childIndex].widget, ArrangeChild(cs[es[k].childIndex].View(), allotted))
    decreases |es|
  {
    var prefix := es[..|es| - 1];
    assert es == prefix + [es[|es| - 1]];
    if k < |es| - 1 {
      assert prefix[k] == es[k];
      PlaceEntriesAt(cs, prefix, allotted, k);
    } else if |prefix| > 0 {
      PlaceEntriesAt(cs, prefix, allotted, 0);
    }
  }

  lemma PlaceEntriesSnoc(cs: seq<Slot>, es: seq<ZEntry>, e: ZEntry, allotted: Vec2)
    requires 0 <= e.childIndex < |cs|
    ensures PlaceEntries(cs, es + [e], allotted)
      == PlaceEntries(cs, es, allotted) + [ArrangedWidget(cs[e.childIndex].widget, ArrangeChild(cs[e.childIndex].View(), allotted))]
  {
    assert (es + [e])[..|es|] == es;
  }

  /** What the arrangement pass has produced so far: arranged children, layer flags, last recorded z-order. */
  datatype PassState = PassState(arranged: seq<ArrangedWidget>, layers: seq<bool>, lastZOrder: real)

  /** The arrangement pass's per-entry test, read from the slots: the child exists, is accepted and matches. */
  predicate SlotAccepted(cs: seq<Slot>, e: ZEntry, state: CheckBoxState, filter: set<Visibility>)
    reads cs
  {
    0 <= e.childIndex < |cs| && cs[e.childIndex].widget.visibility in filter
    && IsSameWithCheckState(cs[e.childIndex].slotType, state)
  }

  /**
   * The state of the arrangement pass after visiting the given entries in
   * order: each accepted child is appended with its geometry and a layer
   * flag, and the last recorded z-order moves up when a layer opens.
   */
  function ArrangePass(cs: seq<Slot>, es: seq<ZEntry>, state: CheckBoxState, allotted: Vec2,
                       filter: set<Visibility>, explicit: bool): (p: PassState)
    reads cs
    decreases |es|
  {
    if es == [] then PassState([], [], -FltMax)
    else
      var p := ArrangePass(cs, es[..|es| - 1], state, allotted, filter, explicit);
      var e := es[|es| - 1];
      if !SlotAccepted(cs, e, state, filter) then p
      else
        var s := cs[e.childIndex];
        var opens := e.zOrder > p.lastZOrder + Delta;
        PassState(p.arranged + [ArrangedWidget(s.widget, ArrangeChild(s.View(), allotted))],
                  p.layers + [!explicit || (opens && |p.layers| > 0)],
                  if explicit && opens then e.zOrder else p.lastZOrder)
  }

  /**
   * The pass yields one layer flag per arranged child, arranges at most one
   * child per visited entry, and without explicit z-ordering opens a new layer
   * for every child and never records a z-order.
   */
  lemma {:induction false} ArrangePassShape(cs: seq<Slot>, es: seq<ZEntry>, state: CheckBoxState, allotted: Vec2,
                                            filter: set<Visibility>, explicit: bool)
    ensures var p := ArrangePass(cs, es, state, allotted, filter, explicit);
      |p.arranged| == |p.layers| <= |es|
    ensures var p := ArrangePass(cs, es, state, allotted, filter, explicit);
      !explicit ==> p.lastZOrder == -FltMax && forall j :: 0 <= j < |p.layers| ==> p.layers[j]
    decreases |es|
  {
    if es != [] {
      ArrangePassShape(cs, es[..|es| - 1], state, allotted, filter, explicit);
    }
  }

  lemma ArrangePassStep(cs: seq<Slot>, es: seq<ZEntry>, k: nat, state: CheckBoxState, allotted: Vec2,
                        filter: set<Visibility>, explicit: bool)
    requires k < |es|
    ensures var p := ArrangePass(cs, es[..k], state, allotted, filter, explicit);
      var e := es[k];
      ArrangePass(cs, es[..k + 1], state, allotted, filter, explicit)
      == if !SlotAccepted(cs, e, state, filter) then p
         else
           var s := cs[e.childIndex];
           var opens := e.zOrder > p.lastZOrder + Delta;
           PassState(p.arranged + [ArrangedWidget(s.widget, ArrangeChild(s.View(), allotted))],
                     p.layers + [!explicit || (opens && |p.layers| > 0)],
                     if explicit && opens then e.zOrder else p.lastZOrder)
  {
    assert es[..k + 1][..k] == es[..k];
  }

  /**
   * The pass arranges exactly the arrangeable entries, in visiting order, and
   * its layer flags and last z-order are those of their z-orders.
   */
  lemma {:induction false} ArrangePassMeaning(cs: seq<Slot>, es: seq<ZEntry>, state: CheckBoxState, allotted: Vec2,
                                              filter: set<Visibility>, explicit: bool)
    ensures var p := ArrangePass(cs, es, state, allotted, filter, explicit);
      var kept := KeepArrangeable(ViewsOf(cs), es, state, filter);
      && p.arranged == PlaceEntries(cs, kept, allotted)
      && p.layers == LayerFlags(ZsOf(kept), explicit)
      && p.lastZOrder == LastZOrder(ZsOf(kept), explicit)
    decreases |es|
  {
    var vs := ViewsOf(cs);
    if es == [] {
      assert ZsOf([]) == [];
    } else {
      var prefix := es[..|es| - 1];
      var e := es[|es| - 1];
      assert es == prefix + [e];
      ArrangePassMeaning(cs, prefix, state, allotted, filter, explicit);
      KeepArrangeableSnoc(vs, prefix, e, state, filter);
      SlotAcceptedIsArrangeable(cs, e, state, filter);
      if SlotAccepted(cs, e, state, filter) {
        var kept := KeepArrangeable(vs, prefix, state, filter);
        PlaceEntriesSnoc(cs, kept, e, allotted);
        LayerStep(kept, e, explicit);
      }
    }
  }

  /** The slot-level test is the view-level one. */
  lemma SlotAcceptedIsArrangeable(cs: seq<Slot>, e: ZEntry, state: CheckBoxState, filter: set<Visibility>)
    ensures SlotAccepted(cs, e, state, filter) <==> Arrangeable(ViewsOf(cs), e, state, filter)
  {
    if 0 <= e.childIndex < |cs| {
      assert ViewsOf(cs)[e.childIndex] == cs[e.childIndex].View();
    }
  }

  /** A snapshot of every mutable field of the panel, used to say what a method leaves alone. */
  datatype PanelFields = PanelFields(
    children: seq<Slot>,
    isToggleChecked: CheckStateAttr,
    isFocusable: bool,
    clickMethod: ClickMethod,
    isPressed: bool,
    hasStateDelegate: bool,
    notified: seq<CheckBoxState>,
    cachedSize: Vec2)

  /** The toggle panel: an ordered collection of slots shown according to the check state. */
  class Panel {
    var children: seq<Slot>
    var isToggleChecked: CheckStateAttr
    var isFocusable: bool
    var clickMethod: ClickMethod
    var isPressed: bool
    /** Whether a check-state-changed delegate is bound. */
    var hasStateDelegate: bool
    /** The values passed to the check-state-changed delegate, oldest first. */
    var notified: seq<CheckBoxState>
    /** The size of the panel's last computed geometry, maintained by the host. */
    var cachedSize: Vec2
    /** The host's shared placeholder widget for slots without content. */
    const nullWidget: Widget
    /** The host setting that batches equal z-orders into one paint layer. */
    const explicitChildZOrder: bool

    /** Construction: the declared slots become the children in declaration order. */
    constructor(args: Arguments, nullWidget: Widget, explicitChildZOrder: bool)
      ensures children == args.slots
      ensures isToggleChecked == args.isToggleChecked && isFocusable == args.isFocusable
      ensures clickMethod == args.clickMethod && hasStateDelegate == args.hasStateDelegate
      ensures !isPressed && notified == [] && cachedSize == Vec2(0.0, 0.0)
      ensures this.nullWidget == nullWidget && this.explicitChildZOrder == explicitChildZOrder
    {
      this.nullWidget := nullWidget;
      this.explicitChildZOrder := explicitChildZOrder;
      cachedSize := Vec2(0.0, 0.0);
      notified := [];
      children := [];
      isToggleChecked := args.isToggleChecked;
      isFocusable := args.isFocusable;
      clickMethod := args.clickMethod;
      hasStateDelegate := args.hasStateDelegate;
      isPressed := false;
      new;
      var slotIndex := 0;
      while slotIndex < |args.slots|
        invariant 0 <= slotIndex <= |args.slots|
        invariant children == args.slots[..slotIndex]
        invariant isToggleChecked == args.isToggleChecked && isFocusable == args.isFocusable
        invariant clickMethod == args.clickMethod && hasStateDelegate == args.hasStateDelegate
        invariant !isPressed && notified == [] && cachedSize == Vec2(0.0, 0.0)
      {
        children := children + [args.slots[slotIndex]];
        slotIndex := slotIndex + 1;
      }
    }

    function State(): PanelFields
      reads this
    {
      PanelFields(children, isToggleChecked, isFocusable, clickMethod, isPressed, hasStateDelegate, notified, cachedSize)
    }

    function Views(): seq<SlotView>
      reads this, children
    {
      ViewsOf(children)
    }

    function CheckState(): CheckBoxState
      reads this
    {
      isToggleChecked.Get()
    }

    /** The children arranged in the allotted size under a visibility policy, in paint order. */
    function ArrangedWidgets(allotted: Vec2, filter: set<Visibility>): seq<ArrangedWidget>
      reads this, children
    {
      PlaceEntries(children, ArrangedEntries(Views(), CheckState(), filter), allotted)
    }

    /** Appends one default slot holding the null widget and returns it. */
    method AddSlot() returns (s: Slot)
      modifies this
      ensures fresh(s) && State() == old(State()).(children := old(children) + [s])
      ensures s.Attrs() == DefaultSlotAttrs && s.widget == nullWidget
    {
      s := new Slot(nullWidget);
      children := children + [s];
    }

    /** Removes every child. */
    method ClearChildren()
      modifies this
      ensures State() == old(State()).(children := [])
    {
      if |children| > 0 {
        children := [];
      }
    }

    /**
     * Removes the first child holding `w` and returns its former index, or
     * returns -1 and leaves the children alone when no child holds `w`.
     */
    method RemoveSlot(w: Widget) returns (index: int)
      modifies this
      ensures -1 <= index < |old(children)|
      ensures index == -1 ==> State() == old(State())
      ensures index == -1 ==> forall j :: 0 <= j < |children| ==> children[j].widget != w
      ensures index >= 0 ==> old(children)[index].widget == w
      ensures index >= 0 ==> forall j :: 0 <= j < index ==> old(children)[j].widget != w
      ensures index >= 0 ==> State() == old(State()).(children := old(children)[..index] + old(children)[index + 1..])
    {
      var slotIdx := 0;
      while slotIdx < |children|
        invariant 0 <= slotIdx <= |children|
        invariant children == old(children)
        invariant forall j :: 0 <= j < slotIdx ==> children[j].widget != w
      {
        if w == children[slotIdx].widget {
          children := children[..slotIdx] + children[slotIdx + 1..];
          return slotIdx;
        }
        slotIdx := slotIdx + 1;
      }
      return -1;
    }

    /** Replaces the check-state attribute. */
    method SetToggleIsChecked(attr: CheckStateAttr)
      modifies this
      ensures State() == old(State()).(isToggleChecked := attr)
    {
      isToggleChecked := attr;
    }

    /**
     * Flips the check state: a literal state is overwritten with the toggled
     * one, a bound one is left to its binding; the toggled state is reported
     * to the delegate when one is bound.
     */
    method ToggleCheckedState()
      modifies this
      ensures var next := ToggledState(old(CheckState()));
        State() == old(State()).(
          isToggleChecked := if old(isToggleChecked).Bound? then old(isToggleChecked) else Literal(next),
          notified := old(notified) + (if hasStateDelegate then [next] else []))
    {
      var state := isToggleChecked.Get();
      if state == CheckBoxState.Checked || state == CheckBoxState.Undetermined {
        if !isToggleChecked.Bound? {
          isToggleChecked := Literal(CheckBoxState.Unchecked);
        }
        if hasStateDelegate {
          notified := notified + [CheckBoxState.Unchecked];
        }
      } else if state == CheckBoxState.Unchecked {
        if !isToggleChecked.Bound? {
          isToggleChecked := Literal(CheckBoxState.Checked);
        }
        if hasStateDelegate {
          notified := notified + [CheckBoxState.Checked];
        }
      }
    }

    /**
     * The first half of the arrangement pass: the buffer of state-matching
     * children with their z-orders, in child order, before sorting.
     */
    method CollectSlotOrder(state: CheckBoxState) returns (slotOrder: seq<ZEntry>)
      ensures slotOrder == CollectMatching(Views(), state, |children|)
    {
      var cs := children;
      ghost var vs := ViewsOf(cs);
      slotOrder := [];
      var childIndex := 0;
      while childIndex < |cs|
        invariant 0 <= childIndex <= |cs|
        invariant slotOrder == CollectMatching(vs, state, childIndex)
      {
        var cur := cs[childIndex];
        assert vs[childIndex] == cur.View();
        assert vs[childIndex].attrs.slotType == cur.slotType && vs[childIndex].attrs.zOrder == cur.zOrder;
        CollectMatchingStep(vs, state, childIndex);
        if IsSameWithCheckState(cur.slotType, state) {
          slotOrder := slotOrder + [ZEntry(childIndex, cur.zOrder)];
        }
        childIndex := childIndex + 1;
      }
    }

    /**
     * The second half of the arrangement pass: visits the sorted buffer and,
     * for every child the visibility policy accepts and whose tag matches,
     * emits its geometry and a new-layer flag.
     */
    method ArrangeSorted(slotOrder: seq<ZEntry>, state: CheckBoxState, allotted: Vec2, filter: set<Visibility>)
      returns (arranged: seq<ArrangedWidget>, layers: seq<bool>)
      requires forall e :: e in slotOrder ==> 0 <= e.childIndex < |children|
      ensures var p := ArrangePass(children, slotOrder, state, allotted, filter, explicitChildZOrder);
        arranged == p.arranged && layers == p.layers
    {
      var cs := children;
      var explicit := explicitChildZOrder;
      arranged, layers := [], [];
      var lastZOrder := -FltMax;
      var k := 0;
      while k < |slotOrder|
        invariant 0 <= k <= |slotOrder|
        invariant PassState(arranged, layers, lastZOrder) == ArrangePass(cs, slotOrder[..k], state, allotted, filter, explicit)
      {
        var cur := slotOrder[k];
        ArrangePassStep(cs, slotOrder, k, state, allotted, filter, explicit);
        var curSlot := cs[cur.childIndex];
        var curWidget := curSlot.widget;
        if curWidget.visibility !in filter {
          k := k + 1;
          continue;
        }
        if !IsSameWithCheckState(curSlot.slotType, state) {
          k := k + 1;
          continue;
        }
        arranged := arranged + [ArrangedWidget(curWidget, ArrangeChild(curSlot.View(), allotted))];

        var newLayer := true;
        if explicit {
          newLayer := false;
          if cur.zOrder > lastZOrder + Delta {
            if |layers| > 0 {
              newLayer := true;
            }
            lastZOrder := cur.zOrder;
          }
        }
        layers := layers + [newLayer];
        k := k + 1;
      }
      assert slotOrder[..k] == slotOrder;
    }

    /**
     * The arrangement pass: collects the state-matching children, sorts them
     * by z-order, and arranges them in that order, each accepted child with
     * its geometry and a new-layer flag.
     */
    method ArrangeLayeredChildren(allotted: Vec2, filter: set<Visibility>)
      returns (arranged: seq<ArrangedWidget>, layers: seq<bool>)
      ensures arranged == ArrangedWidgets(allotted, filter)
      ensures layers == LayerFlags(ZsOf(ArrangedEntries(Views(), CheckState(), filter)), explicitChildZOrder)
    {
      var state := CheckState();
      var slotOrder := CollectSlotOrder(state);
      slotOrder := SortByZOrder(slotOrder);
      ArrangeOrderMembers(Views(), state);
      arranged, layers := ArrangeSorted(slotOrder, state, allotted, filter);
      ArrangePassMeaning(children, slotOrder, state, allotted, filter, explicitChildZOrder);
    }

    /** The arrangement without the layer flags. */
    method OnArrangeChildren(allotted: Vec2, filter: set<Visibility>) returns (arranged: seq<ArrangedWidget>)
      ensures arranged == ArrangedWidgets(allotted, filter)
    {
      var childLayers;
      arranged, childLayers := ArrangeLayeredChildren(allotted, filter);
    }

    /**
     * The desired-size pass: the component-wise maximum, starting from (0,0),
     * of the contributions of the non-collapsed children whose tag matches.
     */
    method ComputeDesiredSize() returns (size: Vec2)
      ensures size.x >= 0.0 && size.y >= 0.0
      ensures forall i :: 0 <= i < |children| && Contributes(Views()[i], CheckState()) ==>
        size.x >= DesiredContribution(Views()[i]).x && size.y >= DesiredContribution(Views()[i]).y
      ensures size.x == 0.0 || (exists i :: 0 <= i < |children| && Contributes(Views()[i], CheckState())
                                                && size.x == DesiredContribution(Views()[i]).x)
      ensures size.y == 0.0 || (exists i :: 0 <= i < |children| && Contributes(Views()[i], CheckState())
                                                && size.y == DesiredContribution(Views()[i]).y)
    {
      ghost var vs := Views();
      var state := CheckState();
      var finalX, finalY := 0.0, 0.0;
      var childIndex := 0;
      while childIndex < |children|
        invariant 0 <= childIndex <= |children|
        invariant finalX >= 0.0 && finalY >= 0.0
        invariant forall i :: 0 <= i < childIndex && Contributes(vs[i], state) ==>
          finalX >= DesiredContribution(vs[i]).x && finalY >= DesiredContribution(vs[i]).y
        invariant finalX == 0.0 || (exists i :: 0 <= i < childIndex && Contributes(vs[i], state)
                                                   && finalX == DesiredContribution(vs[i]).x)
        invariant finalY == 0.0 || (exists i :: 0 <= i < childIndex && Contributes(vs[i], state)
                                                   && finalY == DesiredContribution(vs[i]).y)
      {
        var cur := children[childIndex];
        assert vs[childIndex] == cur.View();
        if cur.widget.visibility != Collapsed && IsSameWithCheckState(cur.slotType, state) {
          var contribution := DesiredContribution(cur.View());
          finalX := Max(finalX, contribution.x);
          finalY := Max(finalY, contribution.y);
        }
        childIndex := childIndex + 1;
      }
      size := Vec2(finalX, finalY);
    }

    /**
     * Every arranged widget is the widget of a child whose tag matches the
     * state and whose visibility the policy accepts, placed where the layout
     * formula puts that child.
     */
    lemma ArrangedOnlyMatching(allotted: Vec2, filter: set<Visibility>, k: int)
      requires 0 <= k < |ArrangedWidgets(allotted, filter)|
      ensures exists i ::
                && 0 <= i < |children|
                && children[i].widget == ArrangedWidgets(allotted, filter)[k].widget
                && ArrangedWidgets(allotted, filter)[k].geometry == ArrangeChild(children[i].View(), allotted)
                && children[i].widget.visibility in filter
                && IsSameWithCheckState(children[i].slotType, CheckState())
    {
      var vs := Views();
      var es := ArrangedEntries(vs, CheckState(), filter);
      ArrangedEntriesSpec(vs, CheckState(), filter);
      assert es[k] in es;
      PlaceEntriesAt(children, es, allotted, k);
      var i := es[k].childIndex;
      assert vs[i] == children[i].View();
      assert ZEntry(i, vs[i].attrs.zOrder) in es;
    }
  }

  /** The state a toggle moves to: Checked and Undetermined go to Unchecked, Unchecked to Checked. */
  function ToggledState(s: CheckBoxState): (n: CheckBoxState)
    ensures n != s && n != CheckBoxState.Undetermined
    ensures n == CheckBoxState.Checked <==> s == CheckBoxState.Unchecked
  {
    match s
    case Checked => CheckBoxState.Unchecked
    case Undetermined => CheckBoxState.Unchecked
    case Unchecked => CheckBoxState.Checked
  }

  /** Toggling twice returns a checked or unchecked state to itself. */
  lemma ToggleTwiceRestores(s: CheckBoxState)
    requires s != CheckBoxState.Undetermined
    ensures ToggledState(ToggledState(s)) == s
  {
  }
}
