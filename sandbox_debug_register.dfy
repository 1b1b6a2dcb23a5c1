/**
 * The sandbox's debug register (src/sandbox/scripting.cpp): the parallel lists
 * of the widget-side register, plus a font size kept within bounds, a debug
 * box kept at least 50 pixels on each side, "-1 means last" lookup and a
 * capacity guard on registration.
 */
module SandboxDebugRegister {
  import opened Wrappers
  import opened CppInt
  import opened DebugValues

  /** `std::variant<int, float, double, std::string, std::monostate>`: a dereferenced value. */
  datatype DebugValue =
    | IntValue(i: int)
    | FloatValue(f: real)
    | DoubleValue(d: real)
    | StringValue(s: string)
    | Empty

  /**
   * The `run_me_to_dereference` visitor: the value pointed at, or Empty for an
   * empty slot. A bool has no alternative of its own and converts to the int 1 or 0.
   */
  function Deref(p: DebugPointer): (v: DebugValue)
    reads Target(p)
    ensures p.NoValue? <==> v.Empty?
    ensures p.IntPtr? ==> v == IntValue(p.intCell.value as int)
    ensures p.BoolPtr? ==> v == IntValue(if p.boolCell.value then 1 else 0)
    ensures p.StringPtr? ==> v == StringValue(p.stringCell.value)
    ensures p.FloatPtr? ==> v == FloatValue(p.floatCell.value)
    ensures p.DoublePtr? ==> v == DoubleValue(p.doubleCell.value)
  {
    match p
    case IntPtr(c) => IntValue(c.value as int)
    case FloatPtr(c) => FloatValue(c.value)
    case DoublePtr(c) => DoubleValue(c.value)
    case BoolPtr(c) => IntValue(if c.value then 1 else 0)
    case StringPtr(c) => StringValue(c.value)
    case NoValue => Empty
  }

  /** The smallest box side `updateBoxSize` keeps. */
  const MinBoxSide := 50

  /** A box side as `updateBoxSize` leaves it, or the initial -1. */
  predicate BoxSide(side: int)
  {
    side == -1 || side >= MinBoxSide
  }

  /**
   * The capacity guard `latest_message_idx > box_pixel_height / height` with the
   * index at its initial -1: with the box unset (-1) or at least 50 high, the
   * truncated quotient is at least -1, so the guard never rejects.
   */
  lemma GuardNeverRejects(boxHeight: int, fontHeight: int)
    requires BoxSide(boxHeight) && fontHeight > 0
    ensures !(-1 > CDiv(boxHeight, fontHeight))
  {
    if boxHeight == -1 {
      assert CDiv(-1, fontHeight) == -(1 / fontHeight);
    }
  }

  class DebugRegister {
    var prefaces: seq<string>
    var pointers: seq<DebugPointer>
    var formatters: seq<Formatter>
    var latestMessageIdx: int
    var fontSize: int
    var boxLength: int
    var boxHeight: int
    const padding: int
    /** `font_info_obj.height()`, a positive font metric; the font object never changes. */
    const fontHeight: int

    predicate Consistent()
      reads this
    {
      |pointers| == |prefaces| && |formatters| == |prefaces|
    }

    /** What every public operation keeps: see the constructor and each method. */
    ghost predicate Valid()
      reads this
    {
      Consistent() &&
      (forall i :: 0 <= i < |prefaces| ==> formatters[i] == Formatter(prefaces[i], pointers[i])) &&
      latestMessageIdx == -1 &&
      6 <= fontSize <= 16 &&
      BoxSide(boxLength) && BoxSide(boxHeight) && (boxLength == -1 <==> boxHeight == -1) &&
      fontHeight > 0
    }

    /** The member initialisers: no messages, index -1, size 10, box -1 by -1, padding 5. */
    constructor(fontHeight: int)
      requires fontHeight > 0
      ensures Valid()
      ensures prefaces == [] && pointers == [] && formatters == []
      ensures latestMessageIdx == -1 && fontSize == 10
      ensures boxLength == -1 && boxHeight == -1 && padding == 5
      ensures this.fontHeight == fontHeight
    {
      prefaces, pointers, formatters := [], [], [];
      latestMessageIdx := -1;
      fontSize := 10;
      boxLength, boxHeight := -1, -1;
      padding := 5;
      this.fontHeight := fontHeight;
    }

    /** `set_font_size(proposed_size)`: accepts exactly 6..16. */
    method SetFontSize(proposed: int) returns (ok: bool)
      modifies this`fontSize
      ensures ok <==> 6 <= proposed <= 16
      ensures fontSize == if ok then proposed else old(fontSize)
      ensures old(Valid()) ==> Valid()
    {
      if proposed > 16 || proposed < 6 {
        return false;
      }
      fontSize := proposed;
      return true;
    }

    method GetFontSize() returns (size: int)
      ensures size == fontSize
    {
      return fontSize;
    }

    /**
     * `get_max_debug_lines()`: how many font heights fit in the box height, by
     * C++ integer division (so -1 or 0 for the unset box).
     */
    method GetMaxDebugLines() returns (lines: int)
      requires fontHeight > 0
      ensures lines == CDiv(boxHeight, fontHeight)
      ensures boxHeight >= 0 ==> lines * fontHeight <= boxHeight < (lines + 1) * fontHeight
      ensures BoxSide(boxHeight) ==> lines >= -1
    {
      lines := if boxHeight >= 0 then boxHeight / fontHeight else -((-boxHeight) / fontHeight);
      if BoxSide(boxHeight) {
        GuardNeverRejects(boxHeight, fontHeight);
      }
    }

    /** `updateBoxSize(debug_box)`: both sides become 50 if either is below 50; otherwise both are stored. */
    method UpdateBoxSize(width: int, height: int)
      modifies this`boxLength, this`boxHeight
      ensures width < MinBoxSide || height < MinBoxSide ==> boxLength == MinBoxSide && boxHeight == MinBoxSide
      ensures !(width < MinBoxSide || height < MinBoxSide) ==> boxLength == width && boxHeight == height
      ensures old(Valid()) ==> Valid()
    {
      if width < MinBoxSide || height < MinBoxSide {
        boxLength, boxHeight := MinBoxSide, MinBoxSide;
      } else {
        boxLength, boxHeight := width, height;
      }
    }

    /**
     * `get_debug_value_at_idx(idx)`: -1 selects the last pointer (`back()`, which
     * needs a non-empty list); any other index goes through `at()`, which throws
     * out_of_range unless it is in bounds. The pointer is then dereferenced.
     */
    method GetDebugValueAtIdx(idx: int) returns (r: Result<DebugValue>)
      requires idx == -1 ==> |pointers| > 0
      ensures idx == -1 ==> r == Ok(Deref(pointers[|pointers| - 1]))
      ensures idx != -1 && 0 <= idx < |pointers| ==> r == Ok(Deref(pointers[idx]))
      ensures idx != -1 && !(0 <= idx < |pointers|) ==> r == Thrown(OutOfRange)
    {
      var p: DebugPointer;
      if idx == -1 {
        p := pointers[|pointers| - 1];
      } else if 0 <= idx < |pointers| {
        p := pointers[idx];
      } else {
        return Thrown(OutOfRange);
      }
      return Ok(Deref(p));
    }

    method ConfirmConsistent() returns (r: Result<()>)
      ensures r.Ok? <==> Consistent()
      ensures r.Thrown? ==> r.exception == RuntimeError("Inconsistent Data Fields.")
    {
      if |pointers| != |prefaces| || |formatters| != |prefaces| {
        return Thrown(RuntimeError("Inconsistent Data Fields."));
      }
      return Ok(());
    }

    /**
     * `register_new_message(preface, ptto_debug_value)`: throws on inconsistent
     * lists; returns false, changing nothing, when the capacity guard fires;
     * otherwise appends to all three lists and returns true. In any state the
     * public operations reach, it appends and returns true.
     */
    method RegisterNewMessage(preface: string, p: DebugPointer) returns (r: Result<bool>)
      requires fontHeight > 0
      modifies this`prefaces, this`pointers, this`formatters
      ensures !old(Consistent()) ==>
        r == Thrown(RuntimeError("Inconsistent Data Fields.")) && unchanged(this)
      ensures old(Consistent()) && latestMessageIdx > CDiv(boxHeight, fontHeight) ==>
        r == Ok(false) && unchanged(this)
      ensures old(Consistent()) && !(latestMessageIdx > CDiv(boxHeight, fontHeight)) ==>
        r == Ok(true) &&
        prefaces == old(prefaces) + [preface] &&
        pointers == old(pointers) + [p] &&
        formatters == old(formatters) + [Formatter(preface, p)]
      ensures old(Valid()) ==> Valid() && r == Ok(true)
    {
      var check := ConfirmConsistent();
      if check.Thrown? {
        return Thrown(check.exception);
      }
      if latestMessageIdx > CDiv(boxHeight, fontHeight) {
        return Ok(false);
      }
      prefaces := prefaces + [preface];
      pointers := pointers + [p];
      formatters := formatters + [Formatter(preface, p)];
      return Ok(true);
    }

    /** In a valid register the capacity guard never fires. */
    lemma ValidGuardNeverRejects()
      requires Valid()
      ensures !(latestMessageIdx > CDiv(boxHeight, fontHeight))
    {
      GuardNeverRejects(boxHeight, fontHeight);
    }
  }
}
