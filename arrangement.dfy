/**
 * What the toggle panel arranges, in which order, and where paint layers
 * begin: the state filter, the z-order comparator and the sort it drives,
 * the visibility filter of the arrangement pass and the layer flags. Children
 * are identified by their index in the panel's collection.
 */
module Arrangement {
  import opened SlateTypes
  import opened ToggleDefine
  import opened SlotLayout

  /** The epsilon by which a z-order must exceed the last recorded one to open a layer. */
  const Delta: real := 0.00001

  /** The largest finite single-precision float; the layer pass starts from its negation. */
  const FltMax: real := 340282346638528859811704183484516925440.0

  /**
   * A slot is shown in a check state when its tag is the wildcard Other, or
   * when the tag's ordinal equals the state's ordinal.
   */
  function IsSameWithCheckState(t: SlotType, state: CheckBoxState): (r: bool)
    ensures r <==> t == SlotType.Other || t == TagOf(state)
  {
    if t == SlotType.Other then true else SlotTypeOrdinal(t) == CheckStateOrdinal(state)
  }

  /** A child that survived the state filter, with the z-order it is sorted by. */
  datatype ZEntry = ZEntry(childIndex: int, zOrder: real)

  /** The sort comparator: z-order ascending, ties broken by child index ascending. */
  predicate ZLess(a: ZEntry, b: ZEntry)
    ensures a.zOrder < b.zOrder ==> ZLess(a, b)
    ensures b.zOrder < a.zOrder ==> !ZLess(a, b)
    ensures a.zOrder == b.zOrder ==> (ZLess(a, b) <==> a.childIndex < b.childIndex)
  {
    if a.zOrder == b.zOrder then a.childIndex < b.childIndex else a.zOrder < b.zOrder
  }

  /** The comparator is a strict total order on entries. */
  lemma ZLessIsStrictTotalOrder(a: ZEntry, b: ZEntry, c: ZEntry)
    ensures !ZLess(a, a)
    ensures ZLess(a, b) ==> !ZLess(b, a)
    ensures ZLess(a, b) && ZLess(b, c) ==> ZLess(a, c)
    ensures a != b ==> ZLess(a, b) || ZLess(b, a)
  {
  }

  predicate StrictlySorted(s: seq<ZEntry>) {
    forall i, j :: 0 <= i < j < |s| ==> ZLess(s[i], s[j])
  }

  predicate NoDuplicates(s: seq<ZEntry>) {
    forall i, j :: 0 <= i < j < |s| ==> s[i] != s[j]
  }

  /**
   * The entries of the children among the first `n` whose tag matches the
   * state, in child order (the loop that fills the sort buffer).
   */
  function CollectMatching(cs: seq<SlotView>, state: CheckBoxState, n: nat): (r: seq<ZEntry>)
    requires n <= |cs|
    ensures forall e :: e in r ==>
      0 <= e.childIndex < n && e.zOrder == cs[e.childIndex].attrs.zOrder
      && IsSameWithCheckState(cs[e.childIndex].attrs.slotType, state)
    ensures forall i :: 0 <= i < n && IsSameWithCheckState(cs[i].attrs.slotType, state) ==>
      ZEntry(i, cs[i].attrs.zOrder) in r
    ensures forall j, k :: 0 <= j < k < |r| ==> r[j].childIndex < r[k].childIndex
    decreases n
  {
    if n == 0 then []
    else
      var prefix := CollectMatching(cs, state, n - 1);
      var v := cs[n - 1];
      if IsSameWithCheckState(v.attrs.slotType, state) then
        assert forall e :: e in prefix ==> e.childIndex < n - 1;
        prefix + [ZEntry(n - 1, v.attrs.zOrder)]
      else prefix
  }

  /** Visiting one more child appends its entry exactly when its tag matches. */
  lemma CollectMatchingStep(cs: seq<SlotView>, state: CheckBoxState, n: nat)
    requires n < |cs|
    ensures CollectMatching(cs, state, n + 1) == CollectMatching(cs, state, n)
      + (if IsSameWithCheckState(cs[n].attrs.slotType, state) then [ZEntry(n, cs[n].attrs.zOrder)] else [])
  {
  }

  /** Insert one entry into a sorted sequence at the place the comparator gives it. */
  function InsertByZOrder(e: ZEntry, s: seq<ZEntry>): (r: seq<ZEntry>)
    ensures multiset(r) == multiset(s) + multiset{e}
  {
    if s == [] then [e]
    else if ZLess(e, s[0]) then [e] + s
    else
      assert s == [s[0]] + s[1..];
      [s[0]] + InsertByZOrder(e, s[1..])
  }

  /** The sort the arrangement applies to its buffer of entries. */
  function SortByZOrder(s: seq<ZEntry>): (r: seq<ZEntry>)
    ensures multiset(r) == multiset(s)
  {
    if s == [] then []
    else
      assert s == [s[0]] + s[1..];
      InsertByZOrder(s[0], SortByZOrder(s[1..]))
  }

  lemma {:induction false} InsertKeepsStrictlySorted(e: ZEntry, s: seq<ZEntry>)
    requires StrictlySorted(s) && e !in s
    ensures StrictlySorted(InsertByZOrder(e, s))
  {
    if s == [] {
    } else if ZLess(e, s[0]) {
      var r := [e] + s;
      forall i, j | 0 <= i < j < |r| ensures ZLess(r[i], r[j]) {
        if i > 0 {
          assert r[i] == s[i - 1] && r[j] == s[j - 1];
        } else if j > 1 {
          assert ZLess(s[0], s[j - 1]);
        }
      }
    } else {
      assert e != s[0];
      assert ZLess(s[0], e);
      var rest := s[1..];
      assert e !in rest;
      InsertKeepsStrictlySorted(e, rest);
      var tail := InsertByZOrder(e, rest);
      var r := [s[0]] + tail;
      forall i, j | 0 <= i < j < |r| ensures ZLess(r[i], r[j]) {
        if i > 0 {
          assert r[i] == tail[i - 1] && r[j] == tail[j - 1];
        } else {
          var y := r[j];
          assert y in multiset(tail);
          assert y == e || y in multiset(rest);
          if y != e {
            var k :| 0 <= k < |rest| && rest[k] == y;
            assert s[k + 1] == y;
          }
        }
      }
    }
  }

  /** Sorting a buffer without duplicates orders it strictly by the comparator. */
  lemma {:induction false} SortByZOrderStrictlySorted(s: seq<ZEntry>)
    requires NoDuplicates(s)
    ensures StrictlySorted(SortByZOrder(s))
  {
    if s != [] {
      var rest := s[1..];
      assert NoDuplicates(rest) by {
        forall i, j | 0 <= i < j < |rest| ensures rest[i] != rest[j] {
          assert rest[i] == s[i + 1] && rest[j] == s[j + 1];
        }
      }
      SortByZOrderStrictlySorted(rest);
      var sorted := SortByZOrder(rest);
      assert s[0] !in rest by {
        forall k | 0 <= k < |rest| ensures rest[k] != s[0] {
          assert rest[k] == s[k + 1];
        }
      }
      assert s[0] !in multiset(sorted);
      InsertKeepsStrictlySorted(s[0], sorted);
    }
  }

  /** The buffer of state-matching entries, sorted: the order children are visited in. */
  function ArrangeOrder(cs: seq<SlotView>, state: CheckBoxState): seq<ZEntry> {
    SortByZOrder(CollectMatching(cs, state, |cs|))
  }

  /** Every entry of the sorted buffer names a child. */
  lemma ArrangeOrderMembers(cs: seq<SlotView>, state: CheckBoxState)
    ensures forall e :: e in ArrangeOrder(cs, state) ==> 0 <= e.childIndex < |cs|
  {
    var collected := CollectMatching(cs, state, |cs|);
    forall e | e in ArrangeOrder(cs, state) ensures 0 <= e.childIndex < |cs| {
      assert e in multiset(collected);
    }
  }

  /** An entry the arrangement pass keeps: its child is accepted by the visibility policy and matches the state. */
  predicate Arrangeable(cs: seq<SlotView>, e: ZEntry, state: CheckBoxState, filter: set<Visibility>) {
    0 <= e.childIndex < |cs|
    && cs[e.childIndex].visibility in filter
    && IsSameWithCheckState(cs[e.childIndex].attrs.slotType, state)
  }

  /** The entries the arrangement pass keeps, in visiting order. */
  function KeepArrangeable(cs: seq<SlotView>, es: seq<ZEntry>, state: CheckBoxState, filter: set<Visibility>): (r: seq<ZEntry>)
    ensures forall e :: e in r <==> e in es && Arrangeable(cs, e, state, filter)
    ensures StrictlySorted(es) ==> StrictlySorted(r)
    decreases |es|
  {
    if es == [] then []
    else
      var prefix := es[..|es| - 1];
      var last := es[|es| - 1];
      assert es == prefix + [last];
      var kept := KeepArrangeable(cs, prefix, state, filter);
      if Arrangeable(cs, last, state, filter) then
        assert StrictlySorted(es) ==> forall e :: e in kept ==> ZLess(e, last);
        kept + [last]
      else kept
  }

  /** Visiting one more entry keeps it exactly when it is arrangeable. */
  lemma KeepArrangeableSnoc(cs: seq<SlotView>, es: seq<ZEntry>, e: ZEntry, state: CheckBoxState, filter: set<Visibility>)
    ensures KeepArrangeable(cs, es + [e], state, filter)
      == KeepArrangeable(cs, es, state, filter) + (if Arrangeable(cs, e, state, filter) then [e] else [])
  {
    assert (es + [e])[..|es|] == es;
  }

  /** The children the panel arranges for a state and visibility policy, in arrangement order. */
  function ArrangedEntries(cs: seq<SlotView>, state: CheckBoxState, filter: set<Visibility>): seq<ZEntry> {
    KeepArrangeable(cs, ArrangeOrder(cs, state), state, filter)
  }

  /**
   * Child `i` is arranged exactly when its tag matches the state and the
   * policy accepts its visibility; arranged entries carry their child's
   * z-order and are strictly ordered by (z-order, child index), so each child
   * appears at most once and equal z-orders keep insertion order.
   */
  lemma ArrangedEntriesSpec(cs: seq<SlotView>, state: CheckBoxState, filter: set<Visibility>)
    ensures var r := ArrangedEntries(cs, state, filter);
      && StrictlySorted(r)
      && (forall e :: e in r ==> 0 <= e.childIndex < |cs| && e.zOrder == cs[e.childIndex].attrs.zOrder)
      && (forall i :: 0 <= i < |cs| ==>
            (ZEntry(i, cs[i].attrs.zOrder) in r <==>
               cs[i].visibility in filter && IsSameWithCheckState(cs[i].attrs.slotType, state)))
  {
    var collected := CollectMatching(cs, state, |cs|);
    assert NoDuplicates(collected);
    SortByZOrderStrictlySorted(collected);
    var order := ArrangeOrder(cs, state);
    assert forall e :: e in order <==> e in collected by {
      forall e ensures e in order <==> e in collected {
        assert e in order <==> e in multiset(order);
      }
    }
  }

  /** Equal z-orders keep insertion order; a lower z-order always comes first. */
  lemma ArrangedOrderTieBreak(cs: seq<SlotView>, state: CheckBoxState, filter: set<Visibility>, j: int, k: int)
    requires var r := ArrangedEntries(cs, state, filter); 0 <= j < k < |r|
    ensures var r := ArrangedEntries(cs, state, filter);
      r[j].zOrder <= r[k].zOrder
      && (r[j].zOrder == r[k].zOrder ==> r[j].childIndex < r[k].childIndex)
      && r[j].childIndex != r[k].childIndex
  {
    ArrangedEntriesSpec(cs, state, filter);
    var r := ArrangedEntries(cs, state, filter);
    assert ZLess(r[j], r[k]);
    assert r[j] in r && r[k] in r;
  }

  /** A plain 1x1 docked child with the given tag and z-order. */
  function ScenarioChild(t: SlotType, z: real, desired: Vec2): SlotView {
    SlotView(SlotAttrs(Margin(0.0, 0.0, 1.0, 1.0), PointAnchors(0.0, 0.0), Vec2(0.5, 0.5), false, z, t),
             desired, Visible)
  }

  /** Three children: Unchecked at z-order 0, Checked at z-order 5, Other at z-order 1. */
  function ScenarioChildren(w: Vec2): seq<SlotView> {
    [ScenarioChild(SlotType.Unchecked, 0.0, w), ScenarioChild(SlotType.Checked, 5.0, w),
     ScenarioChild(SlotType.Other, 1.0, w)]
  }

  /** In the checked state the Unchecked child is not collected; the others are, in child order. */
  lemma ScenarioCollected(w: Vec2)
    ensures CollectMatching(ScenarioChildren(w), CheckBoxState.Checked, 3) == [ZEntry(1, 5.0), ZEntry(2, 1.0)]
  {
    var cs := ScenarioChildren(w);
    CollectMatchingStep(cs, CheckBoxState.Checked, 0);
    CollectMatchingStep(cs, CheckBoxState.Checked, 1);
    CollectMatchingStep(cs, CheckBoxState.Checked, 2);
  }

  /** Sorting puts the Other child (z-order 1) before the Checked one (z-order 5). */
  lemma ScenarioOrder(w: Vec2)
    ensures ArrangeOrder(ScenarioChildren(w), CheckBoxState.Checked) == [ZEntry(2, 1.0), ZEntry(1, 5.0)]
  {
    ScenarioCollected(w);
    var low, high := ZEntry(2, 1.0), ZEntry(1, 5.0);
    var collected := [high, low];
    assert collected[1..] == [low] && [low][1..] == [];
    assert SortByZOrder([low]) == [low];
    assert !ZLess(high, low);
    assert InsertByZOrder(high, [low]) == [low] + InsertByZOrder(high, []);
  }

  /** Both sorted entries pass the checked-state filter, so both are kept. */
  lemma ScenarioKept(w: Vec2)
    ensures KeepArrangeable(ScenarioChildren(w), [ZEntry(2, 1.0), ZEntry(1, 5.0)], CheckBoxState.Checked, AllVisibilities)
            == [ZEntry(2, 1.0), ZEntry(1, 5.0)]
  {
    var cs := ScenarioChildren(w);
    var st := CheckBoxState.Checked;
    var first, second := ZEntry(2, 1.0), ZEntry(1, 5.0);
    assert Arrangeable(cs, first, st, AllVisibilities) && Arrangeable(cs, second, st, AllVisibilities);
    var empty: seq<ZEntry> := [];
    KeepArrangeableSnoc(cs, empty, first, st, AllVisibilities);
    assert empty + [first] == [first];
    KeepArrangeableSnoc(cs, [first], second, st, AllVisibilities);
    assert [first] + [second] == [ZEntry(2, 1.0), ZEntry(1, 5.0)];
  }

  /** The checked-state scenario: the Unchecked child is dropped, Other (z-order 1) precedes Checked (z-order 5). */
  lemma CheckedScenario(w: Vec2)
    ensures ArrangedEntries(ScenarioChildren(w), CheckBoxState.Checked, AllVisibilities)
            == [ZEntry(2, 1.0), ZEntry(1, 5.0)]
  {
    ScenarioOrder(w);
    ScenarioKept(w);
  }

  /** The z-orders of a sequence of entries. */
  function ZsOf(es: seq<ZEntry>): (zs: seq<real>)
    ensures |zs| == |es|
    ensures forall k :: 0 <= k < |es| ==> zs[k] == es[k].zOrder
  {
    seq(|es|, k requires 0 <= k < |es| => es[k].zOrder)
  }

  /** The z-order last recorded by the layer pass after visiting the given z-orders. */
  function LastZOrder(zs: seq<real>, explicit: bool): real
    decreases |zs|
  {
    if zs == [] then -FltMax
    else
      var last := LastZOrder(zs[..|zs| - 1], explicit);
      var z := zs[|zs| - 1];
      if explicit && z > last + Delta then z else last
  }

  /**
   * The last recorded z-order is the starting -FLT_MAX or one of the visited
   * z-orders, never below the start, and stays at the start without explicit
   * z-ordering.
   */
  lemma {:induction false} LastZOrderRecorded(zs: seq<real>, explicit: bool)
    ensures LastZOrder(zs, explicit) == -FltMax || LastZOrder(zs, explicit) in zs
    ensures LastZOrder(zs, explicit) >= -FltMax
    ensures !explicit ==> LastZOrder(zs, explicit) == -FltMax
    decreases |zs|
  {
    if zs != [] {
      var prefix := zs[..|zs| - 1];
      LastZOrderRecorded(prefix, explicit);
      assert forall z :: z in prefix ==> z in zs;
    }
  }

  /** The layer pass over one more arranged entry: one more flag and the updated last z-order. */
  lemma LayerStep(es: seq<ZEntry>, e: ZEntry, explicit: bool)
    ensures ZsOf(es + [e]) == ZsOf(es) + [e.zOrder]
    ensures LayerFlags(ZsOf(es + [e]), explicit) == LayerFlags(ZsOf(es), explicit)
      + [!explicit || (e.zOrder > LastZOrder(ZsOf(es), explicit) + Delta && |es| > 0)]
    ensures LastZOrder(ZsOf(es + [e]), explicit)
      == if explicit && e.zOrder > LastZOrder(ZsOf(es), explicit) + Delta then e.zOrder else LastZOrder(ZsOf(es), explicit)
  {
    assert ZsOf(es + [e]) == ZsOf(es) + [e.zOrder];
    assert (ZsOf(es) + [e.zOrder])[..|es|] == ZsOf(es);
  }

  /**
   * One "new layer" flag per visited child. Without explicit z-ordering every
   * flag is set. With it, a child opens a layer when its z-order exceeds the
   * last recorded one by more than Delta and an earlier child was arranged.
   */
  function LayerFlags(zs: seq<real>, explicit: bool): (flags: seq<bool>)
    ensures |flags| == |zs|
    decreases |zs|
  {
    if zs == [] then []
    else
      var prefix := zs[..|zs| - 1];
      var z := zs[|zs| - 1];
      LayerFlags(prefix, explicit)
        + [!explicit || (z > LastZOrder(prefix, explicit) + Delta && |prefix| > 0)]
  }

  lemma {:induction false} LayerFlagsPrefix(zs: seq<real>, explicit: bool, k: nat)
    requires k <= |zs|
    ensures LayerFlags(zs[..k], explicit) == LayerFlags(zs, explicit)[..k]
    decreases |zs|
  {
    if k < |zs| {
      var prefix := zs[..|zs| - 1];
      assert zs[..k] == prefix[..k];
      LayerFlagsPrefix(prefix, explicit, k);
    } else {
      assert zs[..k] == zs;
    }
  }

  /** Without explicit z-ordering every arranged child starts its own layer. */
  lemma {:induction false} LayerFlagsAllNewWhenImplicit(zs: seq<real>)
    ensures forall k :: 0 <= k < |zs| ==> LayerFlags(zs, false)[k]
    decreases |zs|
  {
    if zs != [] {
      LayerFlagsAllNewWhenImplicit(zs[..|zs| - 1]);
    }
  }

  /** With explicit z-ordering the first arranged child never opens a new layer. */
  lemma FirstLayerFlagIsFalse(zs: seq<real>)
    requires |zs| > 0
    ensures !LayerFlags(zs, true)[0]
  {
    LayerFlagsPrefix(zs, true, 1);
    assert zs[..1][..0] == [];
  }

  /** Every visited z-order is at most the last recorded one plus Delta. */
  lemma {:induction false} VisitedBelowLastZOrder(zs: seq<real>)
    ensures forall j :: 0 <= j < |zs| ==> zs[j] <= LastZOrder(zs, true) + Delta
    decreases |zs|
  {
    if zs != [] {
      var prefix := zs[..|zs| - 1];
      VisitedBelowLastZOrder(prefix);
      assert forall j :: 0 <= j < |prefix| ==> zs[j] == prefix[j];
    }
  }

  /** The flag of child `k` depends only on the z-orders visited before it. */
  lemma LayerFlagAt(zs: seq<real>, explicit: bool, k: nat)
    requires k < |zs|
    ensures LayerFlags(zs, explicit)[k] == (!explicit || (zs[k] > LastZOrder(zs[..k], explicit) + Delta && k > 0))
  {
    LayerFlagsPrefix(zs, explicit, k + 1);
    var upto := zs[..k + 1];
    assert upto[..k] == zs[..k];
    assert LayerFlags(upto, explicit)[k] == LayerFlags(zs, explicit)[k];
  }

  /** A child that opens a new layer has a z-order above every earlier child's. */
  lemma NewLayerAboveEarlier(zs: seq<real>, k: nat)
    requires k < |zs| && LayerFlags(zs, true)[k]
    ensures forall j :: 0 <= j < k ==> zs[j] < zs[k]
  {
    LayerFlagAt(zs, true, k);
    var prefix := zs[..k];
    VisitedBelowLastZOrder(prefix);
    assert forall j :: 0 <= j < k ==> prefix[j] == zs[j];
  }

  /** Siblings that all share one z-order share one layer when z-ordering is explicit. */
  lemma {:induction false} EqualZOrdersShareLayer(zs: seq<real>)
    requires forall j :: 0 <= j < |zs| ==> zs[j] == zs[0]
    ensures forall k :: 0 <= k < |zs| ==> !LayerFlags(zs, true)[k]
    ensures |zs| > 0 ==> LastZOrder(zs, true) == (if zs[0] > -FltMax + Delta then zs[0] else -FltMax)
    decreases |zs|
  {
    if |zs| > 1 {
      var prefix := zs[..|zs| - 1];
      EqualZOrdersShareLayer(prefix);
    } else if |zs| == 1 {
      assert zs[..0] == [];
    }
  }

  /** A child counts toward the desired size when it is not collapsed and its tag matches. */
  predicate Contributes(v: SlotView, state: CheckBoxState)
    ensures Contributes(v, state) <==>
      v.visibility != Collapsed && (v.attrs.slotType == SlotType.Other || v.attrs.slotType == TagOf(state))
  {
    v.visibility != Collapsed && IsSameWithCheckState(v.attrs.slotType, state)
  }
}
