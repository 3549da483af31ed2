/**
 * The state tag of a toggle slot: in which check state the slot is shown.
 * It is a `uint8` enum whose first three ordinals line up with the check-box
 * states, and whose fourth variant, Other, is a wildcard.
 */
module ToggleDefine {
  import opened SlateTypes

  datatype SlotType = Unchecked | Checked | Undetermined | Other

  /** The `uint8` ordinal given by declaration order. */
  function SlotTypeOrdinal(t: SlotType): (n: nat)
    ensures n < 4 && n < 256
    ensures t == SlotType.Other <==> n == 3
  {
    match t
    case Unchecked => 0
    case Checked => 1
    case Undetermined => 2
    case Other => 3
  }

  /** The tag of the same name as a check-box state. */
  function TagOf(s: CheckBoxState): (t: SlotType)
    ensures t != SlotType.Other
    ensures SlotTypeOrdinal(t) == CheckStateOrdinal(s)
  {
    match s
    case Unchecked => SlotType.Unchecked
    case Checked => SlotType.Checked
    case Undetermined => SlotType.Undetermined
  }

  /** Distinct tags have distinct ordinals: there are exactly four variants. */
  lemma SlotTypeOrdinalInjective(t: SlotType, u: SlotType)
    ensures SlotTypeOrdinal(t) == SlotTypeOrdinal(u) <==> t == u
  {
  }

  /** Other's ordinal is not the ordinal of any check-box state. */
  lemma OtherMatchesNoOrdinal(s: CheckBoxState)
    ensures SlotTypeOrdinal(SlotType.Other) != CheckStateOrdinal(s)
  {
  }

  /** The three non-wildcard tags are exactly the check-box states by ordinal. */
  lemma OrdinalsAgreeByName(t: SlotType, s: CheckBoxState)
    requires t != SlotType.Other
    ensures SlotTypeOrdinal(t) == CheckStateOrdinal(s) <==> t == TagOf(s)
  {
  }
}
