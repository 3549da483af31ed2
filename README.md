# Toggle panel for UMG/Slate — a Dafny model

The repository provides a toggle panel for the Unreal UMG/Slate UI framework.
It works like a free-form canvas: every child has anchors, offsets, an
alignment, an auto-size flag and a z-order. Every child also has a *slot type*
tag (Unchecked, Checked, Undetermined or Other). The tag decides in which check
state of the toggle the child is shown.

The model has four layers.

- **Values and tags** (`SlateTypes`, `ToggleDefine`). These are the engine
  value types the panel uses (vectors, margins, anchors, geometry, visibility,
  the three-valued check-box state) and the four-valued slot-type enum with its
  `uint8` ordinals.
- **The layout engine** (`SlotLayout`, `Arrangement`, `SlatePanel`).
  - The per-child layout formula works on one axis at a time: a stretched axis
    uses margins, a docked axis uses a size plus an alignment.
  - The state filter `IsSameWithCheckState` keeps a child when its tag is Other
    or when the tag's ordinal equals the check state's ordinal.
  - The z-order comparator and the sort it drives decide the arrangement order.
  - The arrangement pass emits one "new paint layer" flag per arranged child.
  - The desired-size pass folds the contributing children by component-wise
    maximum.
  - The Slate panel is a class. Its `Slot` objects are built with chaining
    setters. Its child list is mutated by `AddSlot`, `RemoveSlot` and
    `ClearChildren`. Its check state is a literal or bound attribute that
    `ToggleCheckedState` flips, and the delegate receives every new value.
  - The imperative arrangement pass is proved equal to pure specification
    functions, and the lemmas about those functions state what the pass
    promises.
- **Designer edits** (`GridSnap`, `Rebase`). These are pure functions for:
  - grid snapping with the C++ `(int32)` cast and `%`, both of which truncate
    toward zero;
  - the nudge target and the drag-drop target;
  - the per-axis rebase that re-expresses a slot's offsets after an edit.

  Lemmas tie the rebase back to the layout formula. After an anchor change
  with the size preserved, the rebased offsets arrange a child without
  auto-size exactly where and as large as it was before the edit. On an axis
  that is docked both before and after the edit, this holds when the size
  offset equals the pre-edit size.
- **The UMG objects** (`UmgToggle`).
  - `ToggleSlot` keeps a cached layout and mirrors it into the live Slate slot
    when one is attached. `Synced()` says that the attached slot holds exactly
    the cache. Every setter keeps it, and every getter then returns what was
    set.
  - `Toggle` builds the Slate panel from its slots and looks up a slot's
    arranged geometry. It also records and re-broadcasts check-state changes.

Engine inputs are parameters or fields set by the host. These are:

- each widget's desired size and visibility;
- the visibility policy of an arrangement;
- the panel's cached size;
- the shared null widget;
- the explicit-z-order setting.

Coordinates are `real`. The 1e-5 layer epsilon and the `-FLT_MAX` start value
are named constants.

## Model

| member | source | states |
|---|---|---|
| ToggleDefine.SlotTypeOrdinal | Source/UMGExtentionSample/UMGExtensionDefine.h:9-19 | The ordinal is below 4 and fits in `uint8`; it is 3 exactly for Other |
| ToggleDefine.TagOf | Source/UMGExtentionSample/UMGExtensionDefine.h:11-16 | The tag named like a check state is never Other and has that state's ordinal |
| ToggleDefine.SlotTypeOrdinalInjective | Source/UMGExtentionSample/UMGExtensionDefine.h:9-19 | Two tags have the same ordinal iff they are the same tag, so there are exactly four distinct variants |
| ToggleDefine.OtherMatchesNoOrdinal | Source/UMGExtentionSample/UMGExtensionDefine.h:17-18 | Other's ordinal differs from every check-state ordinal, which is why the filter needs a wildcard case |
| ToggleDefine.OrdinalsAgreeByName | Source/UMGExtentionSample/UMGExtensionDefine.h:11-16 | For a tag other than Other, its ordinal equals a check state's ordinal iff it is the tag of that name |
| GridSnap.Trunc | Source/UMGExtentionSample/MyToggleSlot.cpp:49 | The `(int32)` cast truncates toward zero: the result lies within 1 of the value, on the value's side of zero |
| GridSnap.CRem | Source/UMGExtentionSample/MyToggleSlot.cpp:49 | The C++ remainder is smaller than the divisor in magnitude, no larger than the dividend in magnitude, and has the dividend's sign |
| GridSnap.SnapToGrid | Source/UMGExtentionSample/MyToggleSlot.cpp:45-55 | The snapped value is a grid line (the truncated quotient times the grid), lies between zero and the value, and is less than one grid size away from it |
| GridSnap.SnapIsGridMultiple | Source/UMGExtentionSample/MyToggleSlot.cpp:45-55 | Every snapped value is a whole multiple of the grid size |
| GridSnap.SnapKeepsGridPoints | Source/UMGExtentionSample/MyToggleSlot.cpp:45-55 | Snapping is the identity on values already on a grid line (so snapping twice is snapping once) |
| GridSnap.CRemVersusEuclidean | Source/UMGExtentionSample/MyToggleSlot.cpp:49 | For every dividend and non-zero divisor, the C++ remainder equals the Euclidean one when the dividend is non-negative or an exact multiple. Otherwise it is the Euclidean one minus the divisor's magnitude, so the truncating operator has to be spelled out |
| SlotLayout.Horizontal | Source/UMGExtentionSample/SMyToggle.cpp:120 | The horizontal axis view is stretched iff the anchors are stretched horizontally |
| SlotLayout.Vertical | Source/UMGExtentionSample/SMyToggle.cpp:121 | The vertical axis view is stretched iff the anchors are stretched vertically |
| SlotLayout.ArrangeAxis | Source/UMGExtentionSample/SMyToggle.cpp:114-147 | Stretched: position is near anchor plus near offset, and position + size + far offset is the far anchor. Docked: size is the desired size (auto-size) or the far offset, and position + size times alignment is the near anchor plus near offset |
| SlotLayout.FullStretchExample | Source/UMGExtentionSample/SMyToggle.cpp:127-142 | A (0,0)-(1,1) child with margins of 10 in a 200x100 panel is placed at (10,10) with size 180x80 |
| SlotLayout.DockedAlignmentExample | Source/UMGExtentionSample/SMyToggle.cpp:132-146 | A 50x20 child docked at (0,0) with alignment (0.5,0.5) is placed at (-25,-10) with size 50x20, whatever the panel's size |
| SlotLayout.ArrangeChildMeaning | Source/UMGExtentionSample/SMyToggle.cpp:108-150 | A child's rectangle per axis. Stretched: it starts at the near anchor plus the near offset and ends at the far anchor minus the far offset. Docked: its size is the desired size (auto-size) or the far offset, and the alignment fraction of that size sits at the near anchor plus the near offset |
| SlotLayout.DockedAtEdge | Source/UMGExtentionSample/SMyToggle.cpp:230-231 | An axis docked at an edge has equal anchors, so it is never stretched |
| SlotLayout.DesiredContribution | Source/UMGExtentionSample/SMyToggle.cpp:220-234 | A child asks for at least its size on each axis. It asks for exactly its size unless docked at edge 0 or 1 on that axis, and then for its size plus the magnitude of its left (or top) offset |
| Arrangement.IsSameWithCheckState | Source/UMGExtentionSample/SMyToggle.cpp:58-64 | A tag matches a state iff it is Other or it is the tag of the state's name |
| Arrangement.ZLess | Source/UMGExtentionSample/SMyToggle.cpp:50-56 | A lower z-order always comes first and a higher one never does; on equal z-orders the lower child index comes first |
| Arrangement.ZLessIsStrictTotalOrder | Source/UMGExtentionSample/SMyToggle.cpp:50-56 | The comparator (z-order, then child index) is irreflexive, asymmetric, transitive and total on distinct entries |
| Arrangement.CollectMatching | Source/UMGExtentionSample/SMyToggle.cpp:80-90 | The buffer holds exactly the matching children among the first n, each with its own z-order, in increasing child index |
| Arrangement.CollectMatchingStep | Source/UMGExtentionSample/SMyToggle.cpp:80-90 | Visiting one more child appends its entry exactly when its tag matches |
| Arrangement.InsertByZOrder | Source/UMGExtentionSample/SMyToggle.cpp:92 | Inserting adds exactly the one entry (multiset) |
| Arrangement.SortByZOrder | Source/UMGExtentionSample/SMyToggle.cpp:92 | The sort is a permutation of its input |
| Arrangement.InsertKeepsStrictlySorted | Source/UMGExtentionSample/SMyToggle.cpp:92 | Inserting a new entry into a strictly sorted buffer keeps it strictly sorted |
| Arrangement.SortByZOrderStrictlySorted | Source/UMGExtentionSample/SMyToggle.cpp:92 | Sorting a buffer without duplicates orders it strictly by the comparator |
| Arrangement.ArrangeOrderMembers | Source/UMGExtentionSample/SMyToggle.cpp:92-98 | Every sorted entry names an existing child, so the lookup by child index is in range |
| Arrangement.KeepArrangeable | Source/UMGExtentionSample/SMyToggle.cpp:101-106 | The pass keeps exactly the entries whose child is accepted by the policy and matches the state, and keeps a sorted order sorted |
| Arrangement.KeepArrangeableSnoc | Source/UMGExtentionSample/SMyToggle.cpp:101-106 | Visiting one more entry keeps it exactly when it is arrangeable |
| Arrangement.ArrangedEntriesSpec | Source/UMGExtentionSample/SMyToggle.cpp:80-106 | Child i is arranged iff its tag matches and its visibility is accepted; arranged entries carry their child's z-order and are strictly ordered by (z-order, child index) |
| Arrangement.ArrangedOrderTieBreak | Source/UMGExtentionSample/SMyToggle.cpp:52-55 | In the arranged order a lower z-order comes first, equal z-orders keep child order, and no child appears twice |
| Arrangement.ScenarioCollected | Source/UMGExtentionSample/SMyToggle.cpp:80-90 | With children tagged Unchecked/Checked/Other in the checked state, only the last two are collected, in child order |
| Arrangement.ScenarioOrder | Source/UMGExtentionSample/SMyToggle.cpp:92 | Sorting puts the Other child (z-order 1) before the Checked one (z-order 5) |
| Arrangement.ScenarioKept | Source/UMGExtentionSample/SMyToggle.cpp:101-106 | Both sorted entries pass the filter of the checked state |
| Arrangement.CheckedScenario | Source/UMGExtentionSample/SMyToggle.cpp:80-106 | The whole arrangement of that panel in the checked state is Other then Checked, without the Unchecked child |
| Arrangement.LayerStep | Source/UMGExtentionSample/SMyToggle.cpp:152-166 | One more arranged child appends one flag and updates the last z-order as the pass does |
| Arrangement.LayerFlags | Source/UMGExtentionSample/SMyToggle.cpp:152-166 | Exactly one flag per arranged child |
| Arrangement.LayerFlagsPrefix | Source/UMGExtentionSample/SMyToggle.cpp:152-166 | The flags of a prefix are the prefix of the flags: a later child never changes an earlier flag |
| Arrangement.LayerFlagsAllNewWhenImplicit | Source/UMGExtentionSample/SMyToggle.cpp:152-153 | Without explicit z-ordering every flag is set |
| Arrangement.FirstLayerFlagIsFalse | Source/UMGExtentionSample/SMyToggle.cpp:153-161 | With explicit z-ordering the first arranged child never opens a new layer |
| Arrangement.LastZOrderRecorded | Source/UMGExtentionSample/SMyToggle.cpp:93-163 | The last recorded z-order is -FLT_MAX or one of the visited z-orders, never below -FLT_MAX. Without explicit z-ordering it stays -FLT_MAX |
| Arrangement.Contributes | Source/UMGExtentionSample/SMyToggle.cpp:215-218 | A child counts toward the desired size iff it is not collapsed and its tag is Other or the tag of the current state |
| Arrangement.VisitedBelowLastZOrder | Source/UMGExtentionSample/SMyToggle.cpp:156-163 | Every visited z-order is at most the last recorded z-order plus the epsilon |
| Arrangement.LayerFlagAt | Source/UMGExtentionSample/SMyToggle.cpp:152-166 | With explicit z-ordering child k's flag is set iff k > 0 and its z-order exceeds the last z-order recorded before it by more than the epsilon |
| Arrangement.NewLayerAboveEarlier | Source/UMGExtentionSample/SMyToggle.cpp:156-163 | A child that opens a new layer has a z-order strictly above every earlier arranged child's |
| Arrangement.EqualZOrdersShareLayer | Source/UMGExtentionSample/SMyToggle.cpp:152-166 | Children that all share one z-order share one layer when z-ordering is explicit |
| SlatePanel.Slot.constructor | Source/UMGExtentionSample/SMyToggle.h:55-64 | A fresh slot has offset (0,0,1,1), anchors (0,0), alignment (0.5,0.5), no auto-size, z-order 0, tag Other |
| SlatePanel.Slot.WithOffset | Source/UMGExtentionSample/SMyToggle.h:66-70 | Replaces only the offset and returns the same slot |
| SlatePanel.Slot.WithAnchors | Source/UMGExtentionSample/SMyToggle.h:72-76 | Replaces only the anchors and returns the same slot |
| SlatePanel.Slot.WithAlignment | Source/UMGExtentionSample/SMyToggle.h:78-82 | Replaces only the alignment and returns the same slot |
| SlatePanel.Slot.WithAutoSize | Source/UMGExtentionSample/SMyToggle.h:84-88 | Replaces only the auto-size flag and returns the same slot |
| SlatePanel.Slot.WithZOrder | Source/UMGExtentionSample/SMyToggle.h:90-94 | Replaces only the z-order and returns the same slot |
| SlatePanel.Slot.WithSlotType | Source/UMGExtentionSample/SMyToggle.h:102-106 | Replaces only the tag and returns the same slot |
| SlatePanel.Slot.WithContent | Source/UMGExtentionSample/MyToggleSlot.cpp:29-32 | Attaches the widget and leaves every attribute alone |
| SlatePanel.BuildChained | Source/UMGExtentionSample/SMyToggle.h:66-106 | Chained setters compose: the slot ends with every chained attribute set and the rest unchanged |
| SlatePanel.PlaceEntries | Source/UMGExtentionSample/SMyToggle.cpp:149-150 | At most one arranged widget per entry |
| SlatePanel.PlaceEntriesAt | Source/UMGExtentionSample/SMyToggle.cpp:149-150 | When every entry names a child, the k-th arranged widget is the k-th entry's widget with the layout formula's rectangle |
| SlatePanel.PlaceEntriesSnoc | Source/UMGExtentionSample/SMyToggle.cpp:149-150 | Placing one more entry appends its widget and rectangle |
| SlatePanel.ArrangePassShape | Source/UMGExtentionSample/SMyToggle.cpp:95-167 | The pass yields one layer flag per arranged child and at most one child per visited entry. Without explicit z-ordering every flag is set and no z-order is recorded |
| SlatePanel.ArrangePassStep | Source/UMGExtentionSample/SMyToggle.cpp:95-167 | One loop iteration of the pass: skip a rejected entry, or append its geometry and layer flag and update the last z-order |
| SlatePanel.ArrangePassMeaning | Source/UMGExtentionSample/SMyToggle.cpp:95-167 | The pass arranges exactly the arrangeable entries in visiting order, and its flags and last z-order are those of their z-orders |
| SlatePanel.SlotAcceptedIsArrangeable | Source/UMGExtentionSample/SMyToggle.cpp:101-106 | The test the loop reads from the slots is the specification's test on the views |
| SlatePanel.DefaultArgumentsUnset | Source/UMGExtentionSample/SMyToggle.h:111-115 | The default arguments hold an unchecked literal state, are focusable, declare no slots and bind no delegate |
| SlatePanel.Panel.constructor | Source/UMGExtentionSample/SMyToggle.cpp:17-33 | The declared slots become the children in declaration order; the settings come from the arguments; not pressed |
| SlatePanel.Panel.AddSlot | Source/UMGExtentionSample/SMyToggle.h:130-136 | Appends one fresh default slot holding the null widget and returns it; every other field of the panel (earlier children, check state, focus, click method, pressed flag, delegate, call log, cached size) is unchanged |
| SlatePanel.Panel.ClearChildren | Source/UMGExtentionSample/SMyToggle.cpp:35-42 | Leaves no children; every other field of the panel is unchanged |
| SlatePanel.Panel.RemoveSlot | Source/UMGExtentionSample/SMyToggle.cpp:246-259 | Removes the first child holding the widget and returns its index, later children shifting down; returns -1 and changes nothing when no child holds it; every other field of the panel is unchanged |
| SlatePanel.Panel.SetToggleIsChecked | Source/UMGExtentionSample/SMyToggle.cpp:241-244 | Replaces the check-state attribute; every other field of the panel is unchanged |
| SlatePanel.Panel.ToggleCheckedState | Source/UMGExtentionSample/SMyToggle.cpp:377-403 | A literal state becomes the toggled state, a bound one is left to its binding; the toggled state is reported when a delegate is bound; every other field of the panel is unchanged |
| SlatePanel.ToggledState | Source/UMGExtentionSample/SMyToggle.cpp:377-403 | Checked and Undetermined go to Unchecked, Unchecked to Checked; the result always differs from the input and is never Undetermined |
| SlatePanel.ToggleTwiceRestores | Source/UMGExtentionSample/SMyToggle.cpp:377-403 | Toggling twice returns Checked or Unchecked to itself |
| SlatePanel.Panel.CollectSlotOrder | Source/UMGExtentionSample/SMyToggle.cpp:77-90 | The loop fills the buffer with exactly the specification's collected entries |
| SlatePanel.Panel.ArrangeSorted | Source/UMGExtentionSample/SMyToggle.cpp:93-167 | The loop's arranged children and layer flags are those of the pass specification |
| SlatePanel.Panel.ArrangeLayeredChildren | Source/UMGExtentionSample/SMyToggle.cpp:66-169 | The arranged children are the specification's (state-filtered, sorted, policy-filtered, placed by the formula) and the layer flags are those of their z-orders |
| SlatePanel.Panel.OnArrangeChildren | Source/UMGExtentionSample/SMyToggle.cpp:171-175 | The same arrangement without the layer flags |
| SlatePanel.Panel.ComputeDesiredSize | Source/UMGExtentionSample/SMyToggle.cpp:206-239 | Both components are at least 0 and at least every contributing child's contribution, and each is 0 or some contributing child's contribution |
| SlatePanel.Panel.ArrangedOnlyMatching | Source/UMGExtentionSample/SMyToggle.cpp:95-150 | Every arranged widget belongs to a child whose tag matches the state and whose visibility is accepted, and sits where the layout formula puts that child |
| Rebase.AnchorsMovedAxis | Source/UMGExtentionSample/MyToggleSlot.cpp:403-426 | Anchors and alignment are kept, and an axis docked before and after keeps its size offset |
| Rebase.AnchorsMovedKeepsGeometry | Source/UMGExtentionSample/MyToggleSlot.cpp:400-450 | Arranging the rebased axis without auto-size reproduces the pre-edit position and size. Conditions: not a docked-to-stretched change without size preservation, and on a docked-to-docked axis the size offset equals the pre-edit size |
| Rebase.AnchorsMovedFillsAnchorSpan | Source/UMGExtentionSample/MyToggleSlot.cpp:409-414 | A docked axis that becomes stretched without preserving the size fills the span between its anchors |
| Rebase.DesiredAxis | Source/UMGExtentionSample/MyToggleSlot.cpp:451-477 | The near offset is the target relative to the near anchor (plus the alignment offset when docked); a stretched far offset shifts by the amount the near one moved |
| Rebase.DesiredPlacesAtTarget | Source/UMGExtentionSample/MyToggleSlot.cpp:451-477 | Arranging the rebased axis without auto-size puts the child at the desired position with the length it had at the pre-edit near offset, provided that a docked axis's size offset equals the pre-edit size |
| Rebase.MovedAxis | Source/UMGExtentionSample/MyToggleSlot.cpp:478-506 | The typed-in near offset is re-expressed against the near anchor (plus the alignment offset when docked); the far offset is kept |
| Rebase.MovedPlacesAtEnteredOffset | Source/UMGExtentionSample/MyToggleSlot.cpp:478-506 | After the move, arranged without auto-size, the child's near edge sits at the typed-in position, provided that a docked axis's size offset equals the pre-edit size |
| Rebase.RebasedLayout | Source/UMGExtentionSample/MyToggleSlot.cpp:397-506 | Anchors and alignment are kept; the desired position is consumed only when it was used; nothing changes when neither anchors nor position moved and no position is pending |
| Rebase.RebaseAfterAnchorChangeKeepsGeometry | Source/UMGExtentionSample/MyToggleSlot.cpp:400-450 | After an anchor change with the size preserved, a rebased slot without auto-size is arranged exactly at its pre-edit geometry, provided that on each axis docked before and after the edit the size offset equals the pre-edit size |
| Rebase.SnapIf | Source/UMGExtentionSample/MyToggleSlot.cpp:45-55 | Without snapping the value is kept; with it the value is a grid line between zero and the value, within one grid size |
| Rebase.NudgedPosition | Source/UMGExtentionSample/MyToggleSlot.cpp:41-55 | The position moves by the direction; an axis with zero direction is untouched; with a grid each moved axis lands on a grid line |
| Rebase.NudgedSize | Source/UMGExtentionSample/MyToggleSlot.cpp:57-67 | On a stretched axis position + size is kept; on a docked axis the size is kept |
| Rebase.DropSize | Source/UMGExtentionSample/MyToggleSlot.cpp:90-91 | Each component is the larger of the desired size and the (100,40) minimum |
| Rebase.DropSizeKeepsLargeChild | Source/UMGExtentionSample/MyToggleSlot.cpp:90-91 | A dragged-in child keeps its desired size iff it is at least the (100,40) minimum on both axes; a child no larger than the minimum on both axes gets exactly the minimum |
| Rebase.DropPosition | Source/UMGExtentionSample/MyToggleSlot.cpp:93-101 | The cursor, with each axis that has a grid snapped to a grid line |
| UmgToggle.ContentOrNull | Source/UMGExtentionSample/MyToggleSlot.cpp:31 | The slot shows its content, or the null widget when there is none |
| UmgToggle.NudgeTarget | Source/UMGExtentionSample/MyToggleSlot.cpp:41-67 | The step-by-step computation yields the nudged position and size |
| UmgToggle.ToggleSlot.constructor | Source/UMGExtentionSample/MyToggleSlot.cpp:8-18 | Offsets (0,0,100,30), anchors (0,0), alignment (0,0), no auto-size, z-order 0, tag Other, no slate slot |
| UmgToggle.ToggleSlot.GetLayout | Source/UMGExtentionSample/MyToggleSlot.cpp:136-139 | The cached layout; while synced its offsets, anchors and alignment are what the live slot reports |
| UmgToggle.ToggleSlot.GetPosition | Source/UMGExtentionSample/MyToggleSlot.cpp:152-161 | When synced, the cached left/top offsets |
| UmgToggle.ToggleSlot.GetSize | Source/UMGExtentionSample/MyToggleSlot.cpp:174-183 | When synced, the cached right/bottom offsets |
| UmgToggle.ToggleSlot.GetOffsets | Source/UMGExtentionSample/MyToggleSlot.cpp:194-202 | When synced, the cached offsets |
| UmgToggle.ToggleSlot.GetAnchors | Source/UMGExtentionSample/MyToggleSlot.cpp:213-221 | When synced, the cached anchors |
| UmgToggle.ToggleSlot.GetAlignment | Source/UMGExtentionSample/MyToggleSlot.cpp:232-240 | When synced, the cached alignment |
| UmgToggle.ToggleSlot.GetAutoSize | Source/UMGExtentionSample/MyToggleSlot.cpp:251-259 | When synced, the cached auto-size flag |
| UmgToggle.ToggleSlot.GetZOrder | Source/UMGExtentionSample/MyToggleSlot.cpp:270-278 | When synced, the cached z-order; read from a slot, the float truncated toward zero |
| UmgToggle.ToggleSlot.GetSlotType | Source/UMGExtentionSample/MyToggleSlot.cpp:315-321 | When synced, the cached tag |
| UmgToggle.ToggleSlot.SetLayout | Source/UMGExtentionSample/MyToggleSlot.cpp:124-134 | Replaces the cached layout, pushes offsets, anchors and alignment to an attached slot, keeps the slot synced, and the getters return the new layout |
| UmgToggle.ToggleSlot.SetPosition | Source/UMGExtentionSample/MyToggleSlot.cpp:141-150 | Writes only the left/top offsets; keeps the slot synced; GetPosition returns the value; GetSize is unchanged when no slot is attached or the slot's offsets were synced with the cache (the whole cached offsets are pushed to the slot) |
| UmgToggle.ToggleSlot.SetSize | Source/UMGExtentionSample/MyToggleSlot.cpp:163-172 | Writes only the right/bottom offsets; keeps the slot synced; GetSize returns the value; GetPosition is unchanged when no slot is attached or the slot's offsets were synced with the cache (the whole cached offsets are pushed to the slot) |
| UmgToggle.ToggleSlot.SetOffsets | Source/UMGExtentionSample/MyToggleSlot.cpp:185-192 | Writes only the offsets, in cache and slot; GetOffsets returns them |
| UmgToggle.ToggleSlot.SetAnchors | Source/UMGExtentionSample/MyToggleSlot.cpp:204-211 | Writes only the anchors, in cache and slot; GetAnchors returns them |
| UmgToggle.ToggleSlot.SetAlignment | Source/UMGExtentionSample/MyToggleSlot.cpp:223-230 | Writes only the alignment, in cache and slot; GetAlignment returns it |
| UmgToggle.ToggleSlot.SetAutoSize | Source/UMGExtentionSample/MyToggleSlot.cpp:242-249 | Writes only the auto-size flag, in cache and slot; GetAutoSize returns it |
| UmgToggle.ToggleSlot.SetZOrder | Source/UMGExtentionSample/MyToggleSlot.cpp:261-268 | Writes only the z-order, in cache and slot (as a float); GetZOrder returns it |
| UmgToggle.ToggleSlot.SetSlotType | Source/UMGExtentionSample/MyToggleSlot.cpp:308-313 | Writes only the tag, in cache and slot; GetSlotType returns it |
| UmgToggle.ToggleSlot.SetMinimum | Source/UMGExtentionSample/MyToggleSlot.cpp:280-287 | Replaces only the minimum anchor corner and pushes the anchors to the slot |
| UmgToggle.ToggleSlot.SetMaximum | Source/UMGExtentionSample/MyToggleSlot.cpp:289-296 | Replaces only the maximum anchor corner and pushes the anchors to the slot |
| UmgToggle.ToggleSlot.SynchronizeProperties | Source/UMGExtentionSample/MyToggleSlot.cpp:298-306 | Leaves the cache alone and makes an attached slot equal to it |
| UmgToggle.ToggleSlot.ReleaseSlateResources | Source/UMGExtentionSample/MyToggleSlot.cpp:20-25 | Forgets the slate slot and nothing else |
| UmgToggle.ToggleSlot.BuildSlot | Source/UMGExtentionSample/MyToggleSlot.cpp:27-35 | Appends a fresh slot holding the content (or the null widget) to the panel, attaches it and syncs it; every other field of the designer slot and of the panel is unchanged |
| UmgToggle.ToggleSlot.NudgeByDesigner | Source/UMGExtentionSample/MyToggleSlot.cpp:39-81 | Reports a change iff the nudged position or size differs; then the getters return them, and the only change, in the cache and in the live slate slot, is the offsets, which the slot receives from the cache. Otherwise neither the cache nor the slate slot changes. The slate slot keeps its widget, and a synced slot stays synced |
| UmgToggle.ToggleSlot.DragDropPreviewByDesigner | Source/UMGExtentionSample/MyToggleSlot.cpp:83-113 | Reports a change iff size or position differ from the drop size and snapped cursor; then the getters return them, and the only change, in the cache and in the live slate slot, is the offsets, which the slot receives from the cache. Otherwise neither changes. The slate slot keeps its widget, and a synced slot stays synced |
| UmgToggle.ToggleSlot.SynchronizeFromTemplate | Source/UMGExtentionSample/MyToggleSlot.cpp:115-120 | Position becomes the template's. Size becomes the template's, except when the template is this slot or shares its slate slot: writing the position first pushes the cached offsets, so the cached size is kept. Only the offsets change, in the cache and in the live slate slot, which receives the cached offsets and keeps its widget and other attributes; a synced slot stays synced |
| UmgToggle.ToggleSlot.SetDesiredPosition | Source/UMGExtentionSample/MyToggleSlot.cpp:367-370 | Records the pending position and nothing else |
| UmgToggle.ToggleSlot.SaveBaseLayout | Source/UMGExtentionSample/MyToggleSlot.cpp:353-365 | With a toggle parent that finds the slot's geometry, stores it and the current layout as the rebase base; otherwise nothing changes |
| UmgToggle.ToggleSlot.PreEditChange | Source/UMGExtentionSample/MyToggleSlot.cpp:325-330 | The same as saving the base layout |
| UmgToggle.ToggleSlot.ApplyRebase | Source/UMGExtentionSample/MyToggleSlot.cpp:397-506 | The layout and pending position become those of the rebase specification; nothing else changes |
| UmgToggle.ToggleSlot.RebaseAfterAnchorsMoved | Source/UMGExtentionSample/MyToggleSlot.cpp:400-450 | Each axis's offsets become the specification's anchor-change rewrite |
| UmgToggle.ToggleSlot.RebaseToDesiredPosition | Source/UMGExtentionSample/MyToggleSlot.cpp:451-477 | Each axis's offsets become the specification's move to the desired position, which is then cleared |
| UmgToggle.ToggleSlot.RebaseAfterMove | Source/UMGExtentionSample/MyToggleSlot.cpp:478-506 | Each axis's near offset is re-expressed as the specification's move |
| UmgToggle.ToggleSlot.RebaseLayout | Source/UMGExtentionSample/MyToggleSlot.cpp:372-512 | Without a toggle parent nothing changes; with one, the rebase applies when the geometry is found (unchanged otherwise) and the slot ends synced |
| UmgToggle.ToggleSlot.PostEditChangeChainProperty | Source/UMGExtentionSample/MyToggleSlot.cpp:332-351 | The slot ends synced, with the same slate slot holding the same widget. Without an anchor edit, without a toggle parent, or with a parent that has no live panel, the cache is unchanged. Otherwise the cache is unchanged or rebased with the size preserved |
| UmgToggle.FirstIndexOf | Source/UMGExtentionSample/MyToggle.cpp:106-113 | The first index holding the widget, with none before it, or -1 when none holds it |
| UmgToggle.FirstIndexOfAt | Source/UMGExtentionSample/MyToggle.cpp:106-113 | An index holding the widget with none before it is the first index |
| UmgToggle.FindArranged | Source/UMGExtentionSample/MyToggle.cpp:106-116 | The search loop finds the widget iff it is arranged, with the geometry of its first occurrence |
| UmgToggle.Toggle.constructor | Source/UMGExtentionSample/MyToggle.cpp:11-17 | No live panel, no broadcasts, no bound getter, unchecked and not focusable, with the host's slot list |
| UmgToggle.Toggle.CheckedStateBinding | Source/UMGExtentionSample/MyToggle.h:26-29 | The binding is a bound attribute iff a getter is bound, and it reports the getter's value when one is bound and the stored state otherwise |
| UmgToggle.Toggle.SlotGeometry | Source/UMGExtentionSample/MyToggle.cpp:93-117 | A geometry exists only for a slot with content and a live panel |
| UmgToggle.Toggle.FoundGeometryIsLayout | Source/UMGExtentionSample/MyToggle.cpp:103-113 | A found geometry is the layout formula's rectangle for a child holding the content whose tag matches the current state |
| UmgToggle.Toggle.UnmatchedSlotHasNoGeometry | Source/UMGExtentionSample/MyToggle.cpp:103-116 | A slot whose content no state-matching child holds is never found |
| UmgToggle.Toggle.GetGeometryForSlot | Source/UMGExtentionSample/MyToggle.cpp:93-117 | Returns true iff the slot has content, the panel is live and the content is arranged, with the geometry of the first match |
| UmgToggle.Toggle.SlateOnToggleCheckeStateChanged | Source/UMGExtentionSample/MyToggle.cpp:119-125 | Stores the new state and broadcasts the (previous, new) pair; nothing else changes |
| UmgToggle.Toggle.SynchronizeProperties | Source/UMGExtentionSample/MyToggle.cpp:25-31 | A live panel gets the toggle's binding: the bound getter when one is bound, otherwise the stored state as a literal. Every other field of the panel is unchanged |
| UmgToggle.Toggle.ReleaseSlateResources | Source/UMGExtentionSample/MyToggle.cpp:19-23 | Drops the live panel; every other field of the toggle is unchanged |
| UmgToggle.Toggle.OnSlotAdded | Source/UMGExtentionSample/MyToggle.cpp:68-74 | Without a live panel nothing changes. With one, the slot is built into it and synced, and every other field of the panel is unchanged |
| UmgToggle.Toggle.OnSlotRemoved | Source/UMGExtentionSample/MyToggle.cpp:76-86 | With a live panel and content, the first child holding the content is removed, or nothing changes when none holds it; every other field of the panel is unchanged |
| UmgToggle.Toggle.RebuildWidget | Source/UMGExtentionSample/MyToggle.cpp:40-57 | A fresh panel becomes the live one. It shows the stored state as a literal, with the toggle's focus setting, a bound delegate, the default click method, not pressed, an empty call log, a zero cached size and the given null widget and z-order setting. It has one child per toggle slot; when no slot object is listed twice, these are the toggle slots' slate slots in list order. Every toggle slot gets this toggle as parent and a synced slot in the panel holding its content, and keeps its other fields |
| UmgToggle.BuildSlots | Source/UMGExtentionSample/MyToggle.cpp:47-54 | The slot loop: the panel gains one child per toggle slot (the toggle slots' slate slots in list order when no slot object is listed twice); every toggle slot is attached and keeps its other fields; the panel's other fields are unchanged |
| UmgToggle.AttachEntry | Source/UMGExtentionSample/MyToggle.cpp:47-54 | One pass of the slot loop: the entry, when it is a toggle slot, is attached and appended, and the loop's invariants move one entry on |
| UmgToggle.AttachSlot | Source/UMGExtentionSample/MyToggle.cpp:51-52 | Sets the parent and builds the slot: it is attached, one child is appended, and nothing else changes |

## Left out

- Painting (`OnPaint`) is not modelled. The arrangement pass produces the layer flags that painting consumes.
- Input handlers (keys, mouse buttons, enter/leave, context menu, capture, focus) are not modelled. Their only state effect is `ToggleCheckedState`, which is modelled.
- Reflection and editor plumbing are not modelled: `SNew`, `Modify()`, `SlatePrepass`, `GetPaletteCategory`, and the `Super::` calls (including the panel base class's release of child slots). The property-chain walk of `PostEditChangeChainProperty` is reduced to a flag saying whether the edited property was the anchors.
- `PROPERTY_BINDING` in `UMyToggle::SynchronizeProperties` passes a bound attribute when `CheckedStateDelegate` is bound, and the stored state as a literal otherwise. The bound getter is the host's code, so the model keeps only the value it reports (`checkedStateDelegate`, `None` when nothing is bound).
- `Toggle.constructor` models the zero-initialised `CheckedState` and `IsFocusable` fields and the slot list the host maintains. The constructor's own visibility and variable flags are not modelled.
- A UMG child's `TakeWidget` and `GetCachedWidget` are taken to be the same object, the content widget itself.
- UmgToggle.Toggle.OnSlotRemoved: a slot without content leaves the panel unchanged. The source dereferences the null content there (MyToggle.cpp:80) and would crash.
- The shared null widget, the cached canvas geometry and the explicit-z-order setting are host inputs, given as parameters or fields.
- Coordinates are unbounded reals, not single-precision floats. The `(int32)` casts of the grid snap (MyToggleSlot.cpp:49, 53, 96, 100) are modelled as truncation of an unbounded value; in C++ they are undefined for magnitudes of 2^31 or more, which the model does not exclude. The z-order of a designer slot is an unbounded integer, with no `int32` wrap-around; reading it back from a slot truncates the float.
- The in-place engine sort of the buffer is modelled as a functional insertion sort whose result is proved a permutation and strictly sorted. Because the comparator is a strict total order on distinct entries, the sorted order is unique, so any correct sort gives this result.
- Delegates are call logs: `notified` on the slate panel and `broadcasts` on the toggle.
- Geometry is local to the panel. The position of the geometry found at rebase time, and the `MoveDelta` computed from it, are not used by the code's branches and are not modelled.
- The rebase branches, the step-by-step grid snapping of the nudge and the search loop of the geometry lookup are separate methods (`RebaseAfterAnchorsMoved`, `RebaseToDesiredPosition`, `RebaseAfterMove`, `NudgeTarget`, `FindArranged`), each proved against its specification function.
- UmgToggle.ToggleSlot.PostEditChangeChainProperty: after an anchor edit the contract says only that the cache is either unchanged or rebased, not which one. The geometry is looked up after the slot is synchronized, and the contract does not relate the synchronized panel to the earlier one.
- The desired-position rebase follows the code: on a stretched axis the far margin shifts by the same amount as the near one, so the size is kept.
- UmgToggle.ToggleSlot.NudgeByDesigner requires a non-zero grid size, and so do `DragDropPreviewByDesigner`, `UmgToggle.NudgeTarget`, `Rebase.NudgedPosition`, `Rebase.SnapIf`, `Rebase.DropPosition` and `GridSnap.SnapToGrid`. The source takes `%` by the grid size without a check (MyToggleSlot.cpp:49, 53, 96, 100); a zero grid is undefined behaviour in C++ and is excluded here.
- UmgToggle.ToggleSlot.DragDropPreviewByDesigner requires content. The source dereferences `Content` without a check (MyToggleSlot.cpp:86).
- The Slate slot's attributes are `TAttribute`s (SMyToggle.h:38-53), which may be bound to getters. The model stores each as the plain value it reports; a bound getter is the host's code.
- `Invalidate(EInvalidateWidget::Layout)` in `AddSlot`, `ClearChildren` and `RemoveSlot` (SMyToggle.h:132, SMyToggle.cpp:39, 248) only asks the engine to lay the panel out again. The engine's invalidation state is not modelled.
- UmgToggle.Toggle.RebuildWidget and UmgToggle.BuildSlots state the order of the new children only when no slot object appears twice in the slot list. The source loop builds a slot listed twice twice, in order; the model does not state which child each entry then gets. UMG gives each child its own slot, so the list holds each slot once. For a list with a repeated slot, the contract still states the child count, that every slot is attached, and that the slots' other fields are kept.
