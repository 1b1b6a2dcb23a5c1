/**
 * The watched values of a debug register: the `dbg_wc_ptr_t` variant of
 * pointers (or nothing), and the text a formatter makes of the value it points
 * at (src/ui/debug_register.cpp, src/sandbox/scripting.cpp).
 */
module DebugValues {
  import opened CppInt

  // The variables a debug line may watch. A float or double is modelled as a real.

  class IntCell {
    var value: int32
    constructor(v: int32)
      ensures value == v
    {
      value := v;
    }
  }

  class BoolCell {
    var value: bool
    constructor(v: bool)
      ensures value == v
    {
      value := v;
    }
  }

  class StringCell {
    var value: string
    constructor(v: string)
      ensures value == v
    {
      value := v;
    }
  }

  class DecimalCell {
    var value: real
    constructor(v: real)
      ensures value == v
    {
      value := v;
    }
  }

  /** `std::variant<int*, float*, double*, bool*, std::string*, std::monostate>`. */
  datatype DebugPointer =
    | IntPtr(intCell: IntCell)
    | FloatPtr(floatCell: DecimalCell)
    | DoublePtr(doubleCell: DecimalCell)
    | BoolPtr(boolCell: BoolCell)
    | StringPtr(stringCell: StringCell)
    | NoValue

  /** The variable a pointer reads, if any. */
  function Target(p: DebugPointer): set<object>
  {
    match p
    case IntPtr(c) => {c}
    case FloatPtr(c) => {c}
    case DoublePtr(c) => {c}
    case BoolPtr(c) => {c}
    case StringPtr(c) => {c}
    case NoValue => {}
  }

  function DigitChar(d: int): char
    requires 0 <= d < 10
  {
    "0123456789"[d]
  }

  function DigitValue(c: char): int
  {
    c as int - '0' as int
  }

  /** The decimal digits of n, most significant first, without leading zeros. */
  function NatText(n: nat): string
  {
    if n < 10 then [DigitChar(n)] else NatText(n / 10) + [DigitChar(n % 10)]
  }

  /** `std::to_string(int)`: a minus sign for negative values, then the digits. */
  function IntText(i: int): string
  {
    if i < 0 then "-" + NatText(-i) else NatText(i)
  }

  function ParseNat(s: string): int
  {
    if s == [] then 0 else 10 * ParseNat(s[..|s| - 1]) + DigitValue(s[|s| - 1])
  }

  /** Reads back an optionally negative decimal number. */
  function ParseInt(s: string): int
  {
    if s != [] && s[0] == '-' then -ParseNat(s[1..]) else ParseNat(s)
  }

  /** The digits of n are decimal digits, the first is not a zero unless n is, and they read back as n. */
  lemma {:induction false} NatTextRoundTrip(n: nat)
    ensures NatText(n) != [] && ParseNat(NatText(n)) == n
    ensures forall c :: c in NatText(n) ==> '0' <= c <= '9'
    ensures |NatText(n)| > 1 ==> NatText(n)[0] != '0'
  {
    if n >= 10 {
      NatTextRoundTrip(n / 10);
      var s := NatText(n);
      assert s[..|s| - 1] == NatText(n / 10);
    }
  }

  /** `std::to_string` of an int reads back as the same int. */
  lemma IntTextRoundTrip(i: int)
    ensures ParseInt(IntText(i)) == i
  {
    var digits := NatText(if i < 0 then -i else i);
    NatTextRoundTrip(if i < 0 then -i else i);
    if i < 0 {
      assert IntText(i)[0] == '-' && IntText(i)[1..] == digits;
    } else {
      assert digits[0] in digits;
    }
  }

  /**
   * The `run_me_to_dereference_and_format` visitor: "True" or "False" for a bool,
   * a string verbatim, "" for an empty slot, `std::to_string` of a number. The
   * float and double conversions stay a parameter.
   */
  function ValueText(p: DebugPointer, decimalText: real -> string): (t: string)
    reads Target(p)
    ensures p.BoolPtr? ==> t == (if p.boolCell.value then "True" else "False")
    ensures p.StringPtr? ==> t == p.stringCell.value
    ensures p.NoValue? ==> t == ""
    ensures p.IntPtr? ==> ParseInt(t) == p.intCell.value as int
    ensures p.FloatPtr? ==> t == decimalText(p.floatCell.value)
    ensures p.DoublePtr? ==> t == decimalText(p.doubleCell.value)
  {
    match p
    case IntPtr(c) =>
      IntTextRoundTrip(c.value as int);
      IntText(c.value as int)
    case FloatPtr(c) => decimalText(c.value)
    case DoublePtr(c) => decimalText(c.value)
    case BoolPtr(c) => if c.value then "True" else "False"
    case StringPtr(c) => c.value
    case NoValue => ""
  }

  /** The formatter closure a registration stores: it captures the preface and the pointer, not the value. */
  datatype Formatter = Formatter(preface: string, target: DebugPointer)

  /** Calling a formatter: the preface, then the text of the value the pointer sees now. */
  function Line(f: Formatter, decimalText: real -> string): (line: string)
    reads Target(f.target)
    ensures |line| >= |f.preface| && line[..|f.preface|] == f.preface
    ensures line[|f.preface|..] == ValueText(f.target, decimalText)
  {
    f.preface + ValueText(f.target, decimalText)
  }

  /**
   * A formatter reads its variable when it is called: after the watched int is
   * changed, the same formatter gives the new value's text.
   */
  method LineFollowsVariable(f: Formatter, v: int32, decimalText: real -> string) returns (line: string)
    requires f.target.IntPtr?
    modifies f.target.intCell
    ensures line == Line(f, decimalText) == f.preface + IntText(v)
  {
    f.target.intCell.value := v;
    line := f.preface + ValueText(f.target, decimalText);
  }
}
