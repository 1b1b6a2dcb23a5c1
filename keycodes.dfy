/**
 * The engine's own key, modifier and mouse-button codes and the fixed tables
 * that translate Qt's values into them (include/core/keycodes.h).
 */
module KeyCodes {
  import opened Wrappers

  /** The `uint16_t` underlying all three enumerations. */
  newtype uint16 = x: int | 0 <= x < 0x1_0000

  // The `KeyCodes` enumerators.
  const KeySpace: uint16 := 32
  const KeyApostrophe: uint16 := 39
  const KeyComma: uint16 := 44
  const KeyMinus: uint16 := 45
  const KeyPeriod: uint16 := 46
  const KeySlash: uint16 := 47
  const Key0: uint16 := 48
  const Key1: uint16 := 49
  const Key2: uint16 := 50
  const Key3: uint16 := 51
  const Key4: uint16 := 52
  const Key5: uint16 := 53
  const Key6: uint16 := 54
  const Key7: uint16 := 55
  const Key8: uint16 := 56
  const Key9: uint16 := 57
  const KeySemicolon: uint16 := 59
  const KeyEqual: uint16 := 61
  const KeyA: uint16 := 65
  const KeyB: uint16 := 66
  const KeyC: uint16 := 67
  const KeyD: uint16 := 68
  const KeyE: uint16 := 69
  const KeyF: uint16 := 70
  const KeyG: uint16 := 71
  const KeyH: uint16 := 72
  const KeyI: uint16 := 73
  const KeyJ: uint16 := 74
  const KeyK: uint16 := 75
  const KeyL: uint16 := 76
  const KeyM: uint16 := 77
  const KeyN: uint16 := 78
  const KeyO: uint16 := 79
  const KeyP: uint16 := 80
  const KeyQ: uint16 := 81
  const KeyR: uint16 := 82
  const KeyS: uint16 := 83
  const KeyT: uint16 := 84
  const KeyU: uint16 := 85
  const KeyV: uint16 := 86
  const KeyW: uint16 := 87
  const KeyX: uint16 := 88
  const KeyY: uint16 := 89
  const KeyZ: uint16 := 90
  const KeyLeftBracket: uint16 := 91
  const KeyBackslash: uint16 := 92
  const KeyRightBracket: uint16 := 93
  const KeyGraveAccent: uint16 := 96
  const KeyWorld1: uint16 := 161
  const KeyWorld2: uint16 := 162
  const KeyEscape: uint16 := 256
  const KeyEnter: uint16 := 257
  const KeyTab: uint16 := 258
  const KeyBackspace: uint16 := 259
  const KeyInsert: uint16 := 260
  const KeyDelete: uint16 := 261
  const KeyRight: uint16 := 262
  const KeyLeft: uint16 := 263
  const KeyDown: uint16 := 264
  const KeyUp: uint16 := 265
  const KeyPageUp: uint16 := 266
  const KeyPageDown: uint16 := 267
  const KeyHome: uint16 := 268
  const KeyEnd: uint16 := 269
  const KeyCapsLock: uint16 := 280
  const KeyScrollLock: uint16 := 281
  const KeyNumLock: uint16 := 282
  const KeyPrintScreen: uint16 := 283
  const KeyPause: uint16 := 284
  const KeyF1: uint16 := 290
  const KeyF2: uint16 := 291
  const KeyF3: uint16 := 292
  const KeyF4: uint16 := 293
  const KeyF5: uint16 := 294
  const KeyF6: uint16 := 295
  const KeyF7: uint16 := 296
  const KeyF8: uint16 := 297
  const KeyF9: uint16 := 298
  const KeyF10: uint16 := 299
  const KeyF11: uint16 := 300
  const KeyF12: uint16 := 301
  const KeyF13: uint16 := 302
  const KeyF14: uint16 := 303
  const KeyF15: uint16 := 304
  const KeyF16: uint16 := 305
  const KeyF17: uint16 := 306
  const KeyF18: uint16 := 307
  const KeyF19: uint16 := 308
  const KeyF20: uint16 := 309
  const KeyF21: uint16 := 310
  const KeyF22: uint16 := 311
  const KeyF23: uint16 := 312
  const KeyF24: uint16 := 313
  const KeyF25: uint16 := 314
  const KeyKp0: uint16 := 320
  const KeyKp1: uint16 := 321
  const KeyKp2: uint16 := 322
  const KeyKp3: uint16 := 323
  const KeyKp4: uint16 := 324
  const KeyKp5: uint16 := 325
  const KeyKp6: uint16 := 326
  const KeyKp7: uint16 := 327
  const KeyKp8: uint16 := 328
  const KeyKp9: uint16 := 329
  const KeyKpDecimal: uint16 := 330
  const KeyKpDivide: uint16 := 331
  const KeyKpMultiply: uint16 := 332
  const KeyKpSubtract: uint16 := 333
  const KeyKpAdd: uint16 := 334
  const KeyKpEnter: uint16 := 335
  const KeyKpEqual: uint16 := 336
  const KeyLeftShift: uint16 := 340
  const KeyLeftControl: uint16 := 341
  const KeyLeftAlt: uint16 := 342
  const KeyLeftSuper: uint16 := 343
  const KeyRightShift: uint16 := 344
  const KeyRightControl: uint16 := 345
  const KeyRightAlt: uint16 := 346
  const KeyRightSuper: uint16 := 347
  const KeyMenu: uint16 := 348
  /** `KEY_LAST = KEY_MENU`. */
  const KeyLast: uint16 := KeyMenu

  /** KEY_0..KEY_9, KEY_A..KEY_Z and KEY_F1..KEY_F25, each in enumeration order. */
  const DigitCodes: seq<uint16> := [Key0, Key1, Key2, Key3, Key4, Key5, Key6, Key7, Key8, Key9]
  const LetterCodes: seq<uint16> :=
    [KeyA, KeyB, KeyC, KeyD, KeyE, KeyF, KeyG, KeyH, KeyI, KeyJ, KeyK, KeyL, KeyM,
     KeyN, KeyO, KeyP, KeyQ, KeyR, KeyS, KeyT, KeyU, KeyV, KeyW, KeyX, KeyY, KeyZ]
  const FunctionCodes: seq<uint16> :=
    [KeyF1, KeyF2, KeyF3, KeyF4, KeyF5, KeyF6, KeyF7, KeyF8, KeyF9, KeyF10, KeyF11, KeyF12, KeyF13,
     KeyF14, KeyF15, KeyF16, KeyF17, KeyF18, KeyF19, KeyF20, KeyF21, KeyF22, KeyF23, KeyF24, KeyF25]

  type DigitIndex = i: int | 0 <= i < 10
  type LetterIndex = i: int | 0 <= i < 26
  /** Qt numbers its function keys F1..F35. */
  type FunctionNumber = n: int | 1 <= n <= 35 witness 1

  /**
   * `Qt::Key`, abstractly. `Digit(i)` is `Qt::Key_0 + i`, `Letter(i)` the i-th letter
   * `Qt::Key_A + i`, `Function(n)` is `Qt::Key_Fn`; BracketLeft..Menu have an engine
   * code (KEY_LEFT_BRACKET, ..., KEY_MENU) but no table entry, and `OtherKey` is any other Qt key.
   */
  datatype QtKey =
    | Space | Apostrophe | Comma | Minus | Period | Slash | Semicolon | Equal
    | Escape | Enter | Tab | Backspace | Insert | Delete | Right | Left | Down | Up
    | PageUp | PageDown | Home | End | CapsLock | ScrollLock | NumLock | Print | Pause
    | Digit(digit: DigitIndex)
    | Letter(letter: LetterIndex)
    | Function(number: FunctionNumber)
    | BracketLeft | Backslash | BracketRight | QuoteLeft | Shift | Control | Alt | Meta | Menu
    | OtherKey(qtValue: int)

  /**
   * `qt_to_keycode_map.find(key)`: the listed code, or None for a key with no entry.
   * The rows for Key_0..Key_9, Key_A..Key_Z and Key_F1..Key_F13 pair the i-th Qt key
   * with the i-th engine code of the same run.
   */
  function KeyTable(k: QtKey): Option<uint16>
  {
    match k
    case Space => Some(KeySpace)
    case Apostrophe => Some(KeyApostrophe)
    case Comma => Some(KeyComma)
    case Minus => Some(KeyMinus)
    case Period => Some(KeyPeriod)
    case Slash => Some(KeySlash)
    case Semicolon => Some(KeySemicolon)
    case Equal => Some(KeyEqual)
    case Escape => Some(KeyEscape)
    case Enter => Some(KeyEnter)
    case Tab => Some(KeyTab)
    case Backspace => Some(KeyBackspace)
    case Insert => Some(KeyInsert)
    case Delete => Some(KeyDelete)
    case Right => Some(KeyRight)
    case Left => Some(KeyLeft)
    case Down => Some(KeyDown)
    case Up => Some(KeyUp)
    case PageUp => Some(KeyPageUp)
    case PageDown => Some(KeyPageDown)
    case Home => Some(KeyHome)
    case End => Some(KeyEnd)
    case CapsLock => Some(KeyCapsLock)
    case ScrollLock => Some(KeyScrollLock)
    case NumLock => Some(KeyNumLock)
    case Print => Some(KeyPrintScreen)
    case Pause => Some(KeyPause)
    case Digit(i) => Some(DigitCodes[i])
    case Letter(i) => Some(LetterCodes[i])
    case Function(n) => if n <= 13 then Some(FunctionCodes[n - 1]) else None
    case _ => None
  }

  /** The reverse table, written out independently on the numeric values: which Qt key, if any, the table sends to c. */
  function KeyOfCode(c: uint16): Option<QtKey>
  {
    if 48 <= c <= 57 then Some(Digit(c as int - 48))
    else if 65 <= c <= 90 then Some(Letter(c as int - 65))
    else if 290 <= c <= 302 then Some(Function(c as int - 289))
    else match c
      case 32 => Some(Space)
      case 39 => Some(Apostrophe)
      case 44 => Some(Comma)
      case 45 => Some(Minus)
      case 46 => Some(Period)
      case 47 => Some(Slash)
      case 59 => Some(Semicolon)
      case 61 => Some(Equal)
      case 256 => Some(Escape)
      case 257 => Some(Enter)
      case 258 => Some(Tab)
      case 259 => Some(Backspace)
      case 260 => Some(Insert)
      case 261 => Some(Delete)
      case 262 => Some(Right)
      case 263 => Some(Left)
      case 264 => Some(Down)
      case 265 => Some(Up)
      case 266 => Some(PageUp)
      case 267 => Some(PageDown)
      case 268 => Some(Home)
      case 269 => Some(End)
      case 280 => Some(CapsLock)
      case 281 => Some(ScrollLock)
      case 282 => Some(NumLock)
      case 283 => Some(Print)
      case 284 => Some(Pause)
      case _ => None
  }

  /** KEY_0..KEY_9 are 48..57, KEY_A..KEY_Z are 65..90 and KEY_F1..KEY_F25 are 290..314, each run consecutive. */
  lemma RunsAreConsecutive()
    ensures |DigitCodes| == 10 && |LetterCodes| == 26 && |FunctionCodes| == 25
    ensures KeyA == 65 && KeyZ == 90 && Key0 == 48 && Key9 == 57
    ensures forall i :: 0 <= i < 10 ==> DigitCodes[i] as int == Key0 as int + i
    ensures forall i :: 0 <= i < 26 ==> LetterCodes[i] as int == KeyA as int + i
    ensures forall i :: 0 <= i < 25 ==> FunctionCodes[i] as int == KeyF1 as int + i
  {
  }

  /**
   * The lookup and the reverse table agree: every listed key comes back from its
   * code. Every code the table produces is at most KEY_LAST = KEY_MENU = 348, and
   * none is F14..F25 or a keypad code: those can only come from the caller's default.
   */
  lemma KeyTableLeftInverse(k: QtKey)
    ensures KeyTable(k).Some? ==> KeyOfCode(KeyTable(k).value) == Some(k)
    ensures KeyTable(k).Some? ==> KeyTable(k).value <= KeyLast
    ensures KeyTable(k).Some? ==> !(KeyF14 <= KeyTable(k).value <= KeyF25)
    ensures KeyTable(k).Some? ==> !(KeyKp0 <= KeyTable(k).value <= KeyKpEqual)
  {
    RunsAreConsecutive();
  }

  /** ... and every code the reverse table knows is the listed code of its key. */
  lemma KeyTableRightInverse(c: uint16)
    ensures KeyOfCode(c).Some? ==> KeyTable(KeyOfCode(c).value) == Some(c)
  {
    if InRun(c) {
      RightInverseOnRuns(c);
    } else {
      RightInverseOnNamed(c);
    }
  }

  /** The codes of KEY_0..KEY_9, KEY_A..KEY_Z and KEY_F1..KEY_F13. */
  predicate InRun(c: uint16)
  {
    48 <= c <= 57 || 65 <= c <= 90 || 290 <= c <= 302
  }

  lemma RightInverseOnRuns(c: uint16)
    requires InRun(c)
    ensures KeyOfCode(c).Some? && KeyTable(KeyOfCode(c).value) == Some(c)
  {
    RunsAreConsecutive();
  }

  lemma RightInverseOnNamed(c: uint16)
    requires !InRun(c)
    ensures KeyOfCode(c).Some? ==> KeyTable(KeyOfCode(c).value) == Some(c)
  {
  }

  /** No two Qt keys are sent to the same engine code. */
  lemma KeyTableInjective(k1: QtKey, k2: QtKey)
    requires KeyTable(k1).Some? && KeyTable(k1) == KeyTable(k2)
    ensures k1 == k2
  {
    KeyTableLeftInverse(k1);
    KeyTableLeftInverse(k2);
  }

  /** The keys the table has no row for: F14 and above, and the nine keys and any other key after `Function`. */
  predicate Unlisted(k: QtKey)
  {
    match k
    case Function(n) => n >= 14
    case BracketLeft | Backslash | BracketRight | QuoteLeft => true
    case Shift | Control | Alt | Meta | Menu | OtherKey(_) => true
    case _ => false
  }

  lemma KeyTableDomain(k: QtKey)
    ensures KeyTable(k).None? <==> Unlisted(k)
  {
  }

  // The `KeyMods` enumerators.
  const ModShift: uint16 := 0x0001
  const ModControl: uint16 := 0x0002
  const ModAlt: uint16 := 0x0004
  const ModSuper: uint16 := 0x0008
  const ModCapsLock: uint16 := 0x0010
  const ModNumLock: uint16 := 0x0020

  const AllMods: seq<uint16> := [ModShift, ModControl, ModAlt, ModSuper, ModCapsLock, ModNumLock]

  /**
   * The modifiers are 1, 2, 4, ..., 32: each one doubles the one before, so each is
   * a single bit of the word and no two share a bit.
   */
  lemma ModsAreDistinctBits()
    ensures |AllMods| == 6 && AllMods[0] == 1
    ensures forall i :: 0 <= i < |AllMods| - 1 ==> AllMods[i + 1] as int == 2 * AllMods[i] as int
  {
  }

  /** `Qt::KeyboardModifier`, abstractly. */
  datatype QtModifier =
    | ShiftModifier | ControlModifier | AltModifier | MetaModifier | KeypadModifier
    | OtherModifier(qtValue: int)

  /** `qt_to_keymod_map.find(modifier)`. */
  function ModTable(m: QtModifier): Option<uint16>
  {
    match m
    case ShiftModifier => Some(ModShift)
    case ControlModifier => Some(ModControl)
    case AltModifier => Some(ModAlt)
    case MetaModifier => Some(ModSuper)
    case KeypadModifier => Some(ModNumLock)
    case OtherModifier(_) => None
  }

  /**
   * Qt's keypad modifier becomes MOD_NUM_LOCK; no Qt modifier becomes MOD_CAPS_LOCK;
   * and the five listed modifiers go to five different bits.
   */
  lemma ModTableFacts(m: QtModifier, n: QtModifier)
    ensures ModTable(KeypadModifier) == Some(ModNumLock)
    ensures ModTable(m) != Some(ModCapsLock)
    ensures ModTable(m).Some? && ModTable(m) == ModTable(n) ==> m == n
    ensures ModTable(m).None? <==> m.OtherModifier?
  {
  }

  // The `MouseCodes` enumerators.
  const MouseButton1: uint16 := 0
  const MouseButton2: uint16 := 1
  const MouseButton3: uint16 := 2
  const MouseButton4: uint16 := 3
  const MouseButton5: uint16 := 4
  const MouseButton6: uint16 := 5
  const MouseButton7: uint16 := 6
  const MouseButton8: uint16 := 7
  const MouseButtonLast: uint16 := MouseButton8
  const MouseButtonLeft: uint16 := MouseButton1
  const MouseButtonRight: uint16 := MouseButton2
  const MouseButtonMiddle: uint16 := MouseButton3

  /** `Qt::MouseButton`, abstractly. */
  datatype QtMouseButton =
    | LeftButton | RightButton | MiddleButton | XButton1 | XButton2
    | OtherButton(qtValue: int)

  /** `qt_to_mousecode_map.find(button)`. */
  function MouseTable(b: QtMouseButton): Option<uint16>
  {
    match b
    case LeftButton => Some(MouseButtonLeft)
    case RightButton => Some(MouseButtonRight)
    case MiddleButton => Some(MouseButtonMiddle)
    case XButton1 => Some(MouseButton4)
    case XButton2 => Some(MouseButton5)
    case OtherButton(_) => None
  }

  /**
   * LEFT, RIGHT and MIDDLE are buttons 1..3 (codes 0..2), LAST is button 8 (code 7);
   * the table sends the five Qt buttons to codes 0..4, distinct, never 5..7.
   */
  lemma MouseTableFacts(b: QtMouseButton, d: QtMouseButton)
    ensures MouseButtonLeft == 0 && MouseButtonRight == 1 && MouseButtonMiddle == 2
    ensures MouseButtonLast == 7
    ensures MouseTable(b).Some? ==> MouseTable(b).value <= MouseButton5
    ensures MouseTable(b).Some? && MouseTable(b) == MouseTable(d) ==> b == d
    ensures MouseTable(b).None? <==> b.OtherButton?
  {
  }

  /** The template argument `QtType`: one of the three Qt enumerations, or any other type. */
  datatype QtValue =
    | QtKeyValue(key: QtKey)
    | QtModifierValue(modifier: QtModifier)
    | QtMouseValue(button: QtMouseButton)
    | OtherQtValue(raw: int)

  /** The template argument `ReturnType`. */
  datatype CodeType = KeyCodesType | KeyModsType | MouseCodesType | OtherCodeType

  /** The table entry for v when v's type is paired with `target` by one of the three supported pairings. */
  function Lookup(v: QtValue, target: CodeType): Option<uint16>
  {
    match v
    case QtKeyValue(k) => if target == KeyCodesType then KeyTable(k) else None
    case QtModifierValue(m) => if target == KeyModsType then ModTable(m) else None
    case QtMouseValue(b) => if target == MouseCodesType then MouseTable(b) else None
    case OtherQtValue(_) => None
  }

  /**
   * `qt2code<QtType, ReturnType>(qt_val, default_val)`: the mapped code when the
   * pairing is supported and the value has an entry, the default otherwise.
   */
  function Qt2Code(v: QtValue, target: CodeType, default: uint16): (r: uint16)
    ensures target == KeyCodesType && v.QtKeyValue? && KeyTable(v.key).Some? ==> r == KeyTable(v.key).value
    ensures target == KeyModsType && v.QtModifierValue? && ModTable(v.modifier).Some? ==> r == ModTable(v.modifier).value
    ensures target == MouseCodesType && v.QtMouseValue? && MouseTable(v.button).Some? ==> r == MouseTable(v.button).value
    ensures Lookup(v, target).None? ==> r == default
  {
    if v.QtKeyValue? && target == KeyCodesType then
      match KeyTable(v.key)
      case Some(c) => c
      case None => default
    else if v.QtModifierValue? && target == KeyModsType then
      match ModTable(v.modifier)
      case Some(c) => c
      case None => default
    else if v.QtMouseValue? && target == MouseCodesType then
      match MouseTable(v.button)
      case Some(c) => c
      case None => default
    else
      default
  }

  /** Any pairing other than the three supported ones, e.g. a key asked for as a modifier, gives the default. */
  lemma UnsupportedPairingGivesDefault(v: QtValue, target: CodeType, default: uint16)
    requires !(v.QtKeyValue? && target == KeyCodesType)
    requires !(v.QtModifierValue? && target == KeyModsType)
    requires !(v.QtMouseValue? && target == MouseCodesType)
    ensures Qt2Code(v, target, default) == default
  {
  }

  /** A key without an entry (F14..F25 among them) gives the caller's default. */
  lemma UnlistedKeyGivesDefault(k: QtKey, default: uint16)
    requires Unlisted(k)
    ensures Qt2Code(QtKeyValue(k), KeyCodesType, default) == default
  {
    KeyTableDomain(k);
  }
}
