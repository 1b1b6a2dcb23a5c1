/**
 * The input-state bit set: one `uint32_t` word holding one flag per bit
 * (include/core/state_tracker.h, src/core/state_tracker.cpp).
 */
module StateTracking {

  /** A value of the `ST` enumeration (`enum class ST : uint32_t`): the five flags are 0..4. */
  type Flag = b: bv32 | b < 5

  const CtrlHeld: Flag := 0
  const ShiftHeld: Flag := 1
  const LeftClickHeld: Flag := 2
  const RightClickHeld: Flag := 3
  const InDebugOverlay: Flag := 4

  /** `1 << (int)flag`. */
  function Mask(f: Flag): bv32
  {
    1 << f
  }

  /** Every flag index is below 32, so its mask is one bit that is not shifted out of the word. */
  lemma MaskIsSingleBit(f: Flag)
    ensures Mask(f) != 0 && Mask(f) & (Mask(f) - 1) == 0
  {
  }

  /** Distinct flags own disjoint bits of the word, so no flag's write can disturb another's. */
  lemma MasksDisjoint(f: Flag, g: Flag)
    ensures f != g ==> Mask(f) & Mask(g) == 0
  {
  }

  /** `(bool)(1 & (word >> (int)flag))`, the test `Get` performs. */
  predicate IsSet(word: bv32, f: Flag)
  {
    1 & (word >> f) == 1
  }

  /** A flag reads as set exactly when its own bit is present in the word. */
  lemma IsSetIffMaskBit(word: bv32, f: Flag)
    ensures IsSet(word, f) <==> word & Mask(f) != 0
  {
  }

  /** `word | (1 << flag)`: flag f reads as set, and no other bit of the word changes. */
  function WithFlag(word: bv32, f: Flag): (r: bv32)
    ensures IsSet(r, f)
    ensures r & !Mask(f) == word & !Mask(f)
  {
    word | Mask(f)
  }

  /** `word & ~(1 << flag)`: flag f reads as unset, and no other bit of the word changes. */
  function WithoutFlag(word: bv32, f: Flag): (r: bv32)
    ensures !IsSet(r, f)
    ensures r & !Mask(f) == word & !Mask(f)
  {
    word & !Mask(f)
  }

  /** Setting or clearing flag f leaves the reading of every other flag as it was. */
  lemma OtherFlagsUnchanged(word: bv32, f: Flag, g: Flag)
    requires g != f
    ensures IsSet(WithFlag(word, f), g) <==> IsSet(word, g)
    ensures IsSet(WithoutFlag(word, f), g) <==> IsSet(word, g)
  {
  }

  lemma SetIsIdempotent(word: bv32, f: Flag)
    ensures WithFlag(WithFlag(word, f), f) == WithFlag(word, f)
  {
  }

  lemma UnsetIsIdempotent(word: bv32, f: Flag)
    ensures WithoutFlag(WithoutFlag(word, f), f) == WithoutFlag(word, f)
  {
  }

  /** Clearing a flag that was just set gives the old word with that bit cleared. */
  lemma UnsetUndoesSet(word: bv32, f: Flag)
    ensures WithoutFlag(WithFlag(word, f), f) == WithoutFlag(word, f)
  {
  }

  /** The zero word, the state of a fresh or cleared tracker, has no flag set. */
  lemma NoFlagInZeroWord(f: Flag)
    ensures !IsSet(0, f)
  {
  }

  class StateTracker {
    var userState: bv32

    /** `uint32_t user_state = 0`: every flag unset. */
    constructor()
      ensures userState == 0
      ensures forall f: Flag :: !IsSet(userState, f)
    {
      userState := 0;
    }

    method Set(f: Flag)
      modifies this
      ensures userState == WithFlag(old(userState), f)
    {
      userState := userState | Mask(f);
    }

    method Unset(f: Flag)
      modifies this
      ensures userState == WithoutFlag(old(userState), f)
    {
      userState := userState & !Mask(f);
    }

    /** Reads flag f; changes nothing. */
    method Get(f: Flag) returns (held: bool)
      ensures held <==> IsSet(userState, f)
      ensures held <==> userState & Mask(f) != 0
    {
      held := 1 & (userState >> f) == 1;
    }

    /** Back to the state of a freshly constructed tracker. */
    method Clear()
      modifies this
      ensures userState == 0
      ensures forall f: Flag :: !IsSet(userState, f)
    {
      userState := 0;
    }

    /** The whole word; changes nothing. */
    method GetRaw() returns (word: bv32)
      ensures word == userState
    {
      word := userState;
    }
  }
}
