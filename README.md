# nobius core, modelled in Dafny

nobius is a small drawing-application engine in C++ (Qt, SDL and OpenGL). This
project models the parts of it that have finished logic, as plain sequential
state machines, and proves what they promise:

- **Segment chains and the primitive controller** (`entity.dfy`). A path is an
  intrusive doubly-linked chain of `Segment` heap nodes. A `Primitive` is held by
  value inside a `PrimitiveController`. The controller's destructor releases its
  GPU buffers, then tears the chain down with `cleanUpSegmentList`: cut the link
  into the head, walk the `next` links onto a stack, pop and delete. Deletion and
  GPU release are ghost logs.
- **The input-state bit set** (`state_tracker.dfy`). One 32-bit word holds one
  flag per bit.
- **Events** (`event.dfy`). Category bits, the category test, and routing an
  event to a callback only when its type matches. The callback is any function
  from the event to a bool.
- **Debug text** (`debug_printer.dfy`, `debug_values.dfy`,
  `ui_debug_register.dfy`, `sandbox_debug_register.dfy`, `control_panel.dfy`).
  - The formatter that alternates labels and numbers.
  - The two debug registers, which keep three lists in parallel; the sandbox one
    adds font and box bounds, "-1 means last" lookup and a capacity guard.
  - The control panel's line table, updated by index.
- **Key-code tables** (`keycodes.dfy`). The engine's key, modifier and mouse
  codes, the three fixed Qt-to-engine tables, and `qt2code`.

Shared pieces:

- `wrappers.dfy` holds `Option` and `Result`. A `Result` is either a value or a
  thrown C++ exception (`runtime_error` with its message, or `out_of_range`).
- `cpp_int.dfy` holds `int32` and C++'s truncating integer division `CDiv`.

Modelling choices:

- Floats and doubles are reals.
- `std::to_string` of an int is written out (`IntText`) and proved to read back.
- `std::to_string` of a float or double is a function parameter, `decimalText`.
- Font metrics are positive integer parameters.
- Qt's key, modifier and mouse-button values are abstract datatypes.
  - Qt keys come in runs. `Digit(i)` is `Qt::Key_0 + i`, `Letter(i)` is the i-th
    letter key and `Function(n)` is `Qt::Key_Fn`. Every other key the tables care
    about is named.
  - The tables are matches on these constructors.
  - Each table's reverse, `KeyOfCode`, is written independently on the numeric
    codes.
- Event categories are five-bit sets (`bv32`). Flags are `bv32` shift amounts.
- Where a file does not compile as written, the model follows the evident
  intent. This covers the missing `;` in `cleanUpSegmentList` at
  src/engines/entity.cpp:90 and the stray `}` at src/ui/debug_register.cpp:68.

## Model

| member | source | states |
|---|---|---|
| StateTracking.Mask | src/core/state_tracker.cpp:4 | A flag's mask is `1 << (int)flag`, the bit that `Set`, `Unset` and `Get` address |
| StateTracking.MaskIsSingleBit | include/core/state_tracker.h:6-12 | Every flag index is below 32, so `1 << flag` is a single nonzero bit of the word |
| StateTracking.MasksDisjoint | include/core/state_tracker.h:6-12 | Distinct flags own disjoint bits |
| StateTracking.IsSet | src/core/state_tracker.cpp:12 | A flag reads as set when the lowest bit of the word shifted right by the flag index is 1 |
| StateTracking.IsSetIffMaskBit | src/core/state_tracker.cpp:11-13 | The shift-and-test reading of a flag is true exactly when the flag's own bit is in the word |
| StateTracking.WithFlag | src/core/state_tracker.cpp:4 | OR-ing in the mask makes the flag read as set and leaves every other bit of the word unchanged |
| StateTracking.WithoutFlag | src/core/state_tracker.cpp:8 | AND-ing with the inverted mask makes the flag read as unset and leaves every other bit unchanged |
| StateTracking.OtherFlagsUnchanged | src/core/state_tracker.cpp:3-9 | Setting or clearing flag f leaves the reading of every other flag g as it was |
| StateTracking.SetIsIdempotent | src/core/state_tracker.cpp:3-5 | Setting a flag twice is the same as setting it once |
| StateTracking.UnsetIsIdempotent | src/core/state_tracker.cpp:7-9 | Clearing a flag twice is the same as clearing it once |
| StateTracking.UnsetUndoesSet | src/core/state_tracker.cpp:3-9 | Clearing a flag just set gives the old word with that bit cleared |
| StateTracking.NoFlagInZeroWord | include/core/state_tracker.h:16 | No flag reads as set in the zero word |
| StateTracking.StateTracker.constructor | include/core/state_tracker.h:16 | A fresh tracker's raw word is 0, and every flag reads as unset |
| StateTracking.StateTracker.Set | src/core/state_tracker.cpp:3-5 | The new word is the old one with only flag f's bit turned on; afterwards the flag reads as set |
| StateTracking.StateTracker.Unset | src/core/state_tracker.cpp:7-9 | The new word is the old one with only flag f's bit turned off; afterwards the flag reads as unset |
| StateTracking.StateTracker.Get | src/core/state_tracker.cpp:11-13 | Returns whether flag f's bit is in the word, and changes nothing |
| StateTracking.StateTracker.Clear | src/core/state_tracker.cpp:15-17 | Back to the fresh state: raw word 0, every flag unset |
| StateTracking.StateTracker.GetRaw | src/core/state_tracker.cpp:19-21 | Returns the whole word, and changes nothing |
| Events.NamedCategoriesAreDistinctBits | include/core/event.h:14-18 | Each named category is one bit, and two named categories share a bit iff they are the same category |
| Events.NothingSharesNone | include/core/event.h:13 | No category shares a bit with None, in either position |
| Events.Event.constructor | include/core/event.h:33 | A new event is unhandled |
| Events.Event.IsInCategory | include/core/event.h:39-41 | True iff the event's category bits and the query share a bit; always false for None; for a named event category and a named query, true iff they are equal |
| Events.EventRouter.constructor | include/core/event.h:48 | A router over the given event, with no callback run yet |
| Events.EventRouter.MatchEventToFcn | include/core/event.h:51-58 | Returns true iff the types match. On a match the callback runs once and `handled` becomes its old value OR the callback's result. On a mismatch nothing changes and the callback does not run. Once handled, an event stays handled |
| Events.DispatchKeyPress | include/core/event.h:51-58 | A usage example of `match_event_to_fcn`, not a source function: offering a key press to a mouse handler and then to a key handler runs only the key handler, and the event's handled flag is that handler's result |
| KeyCodes.KeyTable | include/core/keycodes.h:159-236 | The key map: each listed Qt key, including the digit, letter and F1..F13 runs, maps to its engine code; any other key has no entry |
| KeyCodes.RunsAreConsecutive | include/core/keycodes.h:16-105 | KEY_0..KEY_9 are 48..57, KEY_A..KEY_Z are 65..90, and KEY_F1..KEY_F25 are consecutive from 290 |
| KeyCodes.KeyTableLeftInverse | include/core/keycodes.h:159-236 | The independent reverse table sends every listed key's code back to that key. Every code the map produces is at most KEY_LAST = KEY_MENU = 348, and none is F14..F25 or a keypad code |
| KeyCodes.KeyTableRightInverse | include/core/keycodes.h:159-236 | Every code the reverse table knows is the map's entry for the key it names |
| KeyCodes.RightInverseOnRuns | include/core/keycodes.h:159-236 | The right inverse on the digit, letter and F1..F13 runs |
| KeyCodes.RightInverseOnNamed | include/core/keycodes.h:159-236 | The right inverse on the individually listed codes |
| KeyCodes.KeyTableInjective | include/core/keycodes.h:159-236 | No two Qt keys map to the same engine code |
| KeyCodes.KeyTableDomain | include/core/keycodes.h:159-236 | A key has no entry exactly when it is unlisted: F14 and above, and the keys without a row |
| KeyCodes.ModsAreDistinctBits | include/core/keycodes.h:135-142 | The six modifiers are 1, 2, 4, ..., 32, each double the one before, so they are distinct single bits |
| KeyCodes.ModTable | include/core/keycodes.h:238-244 | The modifier map: Shift, Control, Alt, Meta and Keypad map to MOD_SHIFT, MOD_CONTROL, MOD_ALT, MOD_SUPER and MOD_NUM_LOCK; any other modifier has no entry |
| KeyCodes.ModTableFacts | include/core/keycodes.h:238-244 | Qt's keypad modifier maps to MOD_NUM_LOCK. Nothing maps to MOD_CAPS_LOCK. The listed modifiers map to distinct codes, and a modifier has an entry iff it is one of the five listed |
| KeyCodes.MouseTable | include/core/keycodes.h:246-252 | The mouse map: Left, Right, Middle, XButton1 and XButton2 map to buttons 1..5; any other button has no entry |
| KeyCodes.MouseTableFacts | include/core/keycodes.h:144-252 | LEFT, RIGHT and MIDDLE alias codes 0, 1 and 2, and LAST is 7. The five Qt buttons map to distinct codes at most 4, and a button has an entry iff it is listed |
| KeyCodes.Qt2Code | include/core/keycodes.h:254-273 | For each of the three supported type pairings, a value with an entry gives that entry; otherwise the result is the default |
| KeyCodes.UnsupportedPairingGivesDefault | include/core/keycodes.h:256-272 | Any type pairing other than the three supported ones gives the default |
| KeyCodes.UnlistedKeyGivesDefault | include/core/keycodes.h:223-235 | A key without an entry, such as F14..F25, gives the default |
| DebugPrinter.WeaveShape | src/sandbox/debug_printer.cpp:18-21 | Alternating two lists of equal length, or with the first one longer, keeps every element exactly once. The first list lands at the even positions and the second at the odd ones |
| DebugPrinter.WeaveSnoc | src/sandbox/debug_printer.cpp:18-21 | Extending both lists by one element extends the alternation by that pair, in the order the lengths dictate |
| DebugPrinter.FlattenAppendPair | src/sandbox/debug_printer.cpp:20 | Appending two strings to the list appends them to its concatenation |
| DebugPrinter.InterleaveAndAppend | src/sandbox/debug_printer.cpp:10-24 | True iff the sizes are equal. On equal sizes the container becomes old + l1[0] + l2[0] + ... + l1[n-1] + l2[n-1]; on unequal sizes it is unchanged |
| DebugPrinter.Pieces | src/sandbox/debug_printer.cpp:63-91 | The longer list leads, or on equal lengths the labels in LEFT mode and the numbers in RIGHT mode. The lists alternate, and every item appears once in its original order |
| DebugPrinter.Stringify | src/sandbox/debug_printer.cpp:57-61 | One text per number, in order |
| DebugPrinter.FormatDebugMessage | src/sandbox/debug_printer.cpp:26-94 | "" when the sizes differ by more than one or both are empty; otherwise the concatenation of `Pieces`. This covers the one-string and one-number cases |
| DebugPrinter.WeaveFirst | src/sandbox/debug_printer.cpp:68-80 | Leading with the first element of the longer list and then alternating the rest alternates the whole lists |
| DebugPrinter.FlattenPrepend | src/sandbox/debug_printer.cpp:70-80 | Concatenation commutes with putting a first piece in front |
| CppInt.DivisionBounds | src/sandbox/scripting.cpp:84 | For a natural dividend and a positive divisor, the quotient is the largest q with q·b at most the dividend |
| CppInt.CDiv | src/sandbox/scripting.cpp:84 | C++ division by a positive divisor: the quotient truncates toward zero, for both signs of the dividend |
| DebugValues.IntText | src/ui/debug_register.cpp:44 | `std::to_string` of an int: a minus sign for a negative value, then its decimal digits without leading zeros |
| DebugValues.NatTextRoundTrip | src/ui/debug_register.cpp:44 | The decimal text of a natural number is digits without a leading zero, and reads back as the number |
| DebugValues.IntTextRoundTrip | src/ui/debug_register.cpp:44 | `std::to_string` of an int reads back as the same int |
| DebugValues.ValueText | src/ui/debug_register.cpp:31-59 | A bool is "True" or "False", a string verbatim, and an empty slot "". An int is text that reads back as it. A float or double is `std::to_string`'s text of the value |
| DebugValues.Line | src/ui/debug_register.cpp:60-61 | A formatted line is always the preface followed by the text of the current value |
| DebugValues.LineFollowsVariable | src/ui/debug_register.cpp:29-31 | A formatter reads its variable when called: after the variable changes, the same formatter shows the new value |
| UiDebugRegister.DebugRegister.constructor | include/ui/debug_register.h:41-49 | Three empty lists, paired |
| UiDebugRegister.DebugRegister.ConfirmConsistent | src/ui/debug_register.cpp:13-19 | Succeeds iff the three lists have one length; otherwise throws runtime_error("Inconsistent Data Fields.") |
| UiDebugRegister.DebugRegister.RegisterNewMessage | src/ui/debug_register.cpp:21-66 | On inconsistent lists it throws before changing anything. Otherwise it appends the preface, the pointer and their formatter, keeping the lists the same length and paired, and returns true. It never returns false |
| SandboxDebugRegister.Deref | src/sandbox/scripting.cpp:110-118 | An empty slot dereferences to an empty value and every pointer to its current value. A bool becomes the int 1 or 0 |
| SandboxDebugRegister.GuardNeverRejects | src/sandbox/scripting.cpp:129 | With the box height at -1 or at least 50, the truncated quotient is at least -1, so `-1 > quotient` never holds |
| SandboxDebugRegister.DebugRegister.constructor | src/sandbox/scripting.cpp:40-54 | No messages, index -1, font size 10, box -1 by -1, padding 5; the invariant holds |
| SandboxDebugRegister.DebugRegister.SetFontSize | src/sandbox/scripting.cpp:71-79 | Accepts exactly 6 <= p <= 16 and stores it; otherwise returns false and keeps the size. The invariant is preserved |
| SandboxDebugRegister.DebugRegister.GetFontSize | src/sandbox/scripting.cpp:81 | Returns the font size and changes nothing |
| SandboxDebugRegister.DebugRegister.GetMaxDebugLines | src/sandbox/scripting.cpp:83-85 | The box height divided by the font height with C++ truncation: the most whole lines that fit, and -1 or more in any reachable state |
| SandboxDebugRegister.DebugRegister.UpdateBoxSize | src/sandbox/scripting.cpp:87-99 | If either side is below 50 both become 50; otherwise both are stored exactly. The invariant is preserved |
| SandboxDebugRegister.DebugRegister.GetDebugValueAtIdx | src/sandbox/scripting.cpp:101-120 | -1 gives the last registered value. An in-range index gives that value. Any other index throws out_of_range |
| SandboxDebugRegister.DebugRegister.ConfirmConsistent | src/sandbox/scripting.cpp:56-63 | Succeeds iff the three lists have one length; otherwise throws the runtime_error |
| SandboxDebugRegister.DebugRegister.RegisterNewMessage | src/sandbox/scripting.cpp:123-174 | Throws on inconsistent lists. Returns false, changing nothing, when the capacity guard fires. Otherwise appends to all three lists and returns true. From any state the public operations reach, it appends and returns true |
| SandboxDebugRegister.DebugRegister.ValidGuardNeverRejects | src/sandbox/scripting.cpp:44-49 | In every reachable state the capacity guard is false: the index stays -1 and the box height stays -1 or at least 50 |
| ControlPanel.TrackerPosition | src/ui/control_panel.cpp:19-22 | Line i's tracker entry: x = padding, y = padding + (i+1)·font height, and the character budget (widget width − 2·padding) / average character width with C++ truncation |
| ControlPanel.BaselinesDescend | src/ui/control_panel.cpp:20 | The y positions that `update_boundaries` computes strictly increase with the line index |
| ControlPanel.DebugDisplay.constructor | src/ui/control_panel.cpp:3-8 | No lines, padding 5, and the single placeholder position {0, 0, 0, 0} |
| ControlPanel.DebugDisplay.RegisterDebugLine | src/ui/control_panel.cpp:10-14 | Returns the previous line count as the new index. The line reads prefix + ": (NaN)" and the stored prefix is prefix + ": "; the two lists grow together |
| ControlPanel.DebugDisplay.UpdateBoundaries | src/ui/control_panel.cpp:16-24 | One entry per line: x = padding, y = padding + (i+1)·fontHeight, width = (widget width − 2·padding) / average character width with C++ truncation |
| ControlPanel.DebugDisplay.UpdateDebugDisplay | src/ui/control_panel.cpp:41-47 | An in-range index replaces only that line and schedules a repaint. Any other index changes nothing |
| ControlPanel.DebugDisplay.UpdateTracker | src/ui/control_panel.cpp:26-39 | `.at()` throws out_of_range on a bad prefix index before anything changes. Otherwise the line becomes stored prefix + value text, under the display's own bounds check |
| ControlPanel.DebugDisplay.UpdateTrackerInt | src/ui/control_panel.cpp:26-29 | A bad prefix index throws out_of_range and changes nothing. An index valid for both lists makes the line stored prefix + `std::to_string` of the int and schedules one repaint. An index valid only for the prefixes changes nothing |
| ControlPanel.DebugDisplay.UpdateTrackerFloat | src/ui/control_panel.cpp:31-34 | A bad prefix index throws out_of_range and changes nothing. An index valid for both lists makes the line stored prefix + the float's text and schedules one repaint. An index valid only for the prefixes changes nothing |
| ControlPanel.DebugDisplay.UpdateTrackerString | src/ui/control_panel.cpp:36-39 | A bad prefix index throws out_of_range and changes nothing. An index valid for both lists makes the line stored prefix + the string verbatim and schedules one repaint. An index valid only for the prefixes changes nothing |
| ControlPanel.Panel.constructor | src/ui/control_panel.cpp:135-136 | On a fresh display, "Mouse X" gets index 0 and "Mouse Y" index 1, both reading "(NaN)" |
| ControlPanel.Panel.MouseMove | src/ui/control_panel.cpp:138-149 | Through the two connected `update_tracker_int` slots, a mouse move rewrites the lines to "Mouse X: x" and "Mouse Y: y" and schedules two repaints |
| Entity.Segment.constructor | include/engines/entity.h:19-33 | A fresh segment is a detached zero-length cubic Bezier at the origin: null next and prev, list index -1 |
| Entity.NewPrimitive | include/engines/entity.h:58-80 | A fresh primitive has no segments, null head and tail, is unfilled, has total length 0, an identity transform and zero equidistant points |
| Entity.IsClosed | include/engines/entity.h:63-64 | A primitive is closed when its head and tail pointers are the same pointer |
| Entity.IsClosedByIdentity | include/engines/entity.h:60-64 | `isClosed` is head == tail by reference. Both null or both the same segment reports closed; two distinct segments report open, even when linked into a ring |
| Entity.NewPrimitiveIsEmptyAndClosed | include/engines/entity.h:63-64 | A fresh, empty primitive reports closed |
| Entity.ReversedAt | src/engines/entity.cpp:99-103 | The k-th segment popped off the stack is the k-th from the end of the walk |
| Entity.ReversedLength | src/engines/entity.cpp:99-103 | Popping everything yields as many segments as were pushed |
| Entity.ReversedSameMultiset | src/engines/entity.cpp:99-103 | Every pushed segment is popped exactly as often as it was pushed |
| Entity.NextOnlyRingIsNotCut | src/engines/entity.cpp:84-97 | A ring closed through `next` back onto the head, with a null `head.prev`, is not cut: every segment's `next` is again a ring segment, so the walk never reaches null, and the ring fails the walk-ends precondition |
| Entity.CleanUpSegmentList | src/engines/entity.cpp:78-106 | A null head does nothing. A non-null `head.prev` has its `next` and the head's `prev` set to null first. The walk visits the chain from the head once each: up to the cut segment if it is on the chain, else through the null end. Every visited segment is deleted exactly once, in reverse visit order. Only the predecessor's `next` and the head's `prev` may change |
| Entity.WalkNext | src/engines/entity.cpp:94-97 | Following `next` from the head until null pushes exactly the chain's segments, in order |
| Entity.DeleteStack | src/engines/entity.cpp:99-103 | Popping until empty deletes every pushed segment once, last pushed first |
| Entity.DestructorReleases | src/engines/entity.cpp:122-128 | Without GPU addresses nothing is released. With them the VAO and the VBO are released, and the EBO only if it is nonzero |
| Entity.PrimitiveController.constructor | src/engines/entity.cpp:109-117 | A new controller holds a fresh primitive. It is unlocked and dirty, with all handles 0 and no GPU addresses |
| Entity.PrimitiveController.ChangePose | include/engines/entity.h:122 | Replaces the Bezier-to-world matrix, changes nothing else in the primitive, and marks the vertex buffer dirty |
| Entity.PrimitiveController.BindGpuBufferHandles | include/engines/entity.h:140 | The first call stores the three handles and records the addresses. A later call changes nothing |
| Entity.PrimitiveController.GetVaoHandle | include/engines/entity.h:125 | Returns the VAO handle and changes nothing |
| Entity.PrimitiveController.GetVboHandle | include/engines/entity.h:126 | Returns the VBO handle and changes nothing |
| Entity.PrimitiveController.GetEboHandle | include/engines/entity.h:127 | Returns the EBO handle and changes nothing |
| Entity.PrimitiveController.GetVertexBufferCache | include/engines/entity.h:128 | Returns the vertex cache and changes nothing |
| Entity.PrimitiveController.GetBufferDirtyState | include/engines/entity.h:129 | Returns the dirty flag and changes nothing |
| Entity.PrimitiveController.Destroy | src/engines/entity.cpp:120-132 | Logs the GPU releases `DestructorReleases` names, then tears the chain down from the primitive's head: a predecessor's `next` and the head's `prev` become null, the walk visits the chain once each, and the segments are deleted once each in reverse order. Nothing else on the heap changes |

## Left out

- The geometry operations of src/engines/entity.cpp:24-48 are left out: append, prepend, split, merge, the t-to-point mappings and segment lookup. They are only declared.
- `getSegmentLength` and `getCubicBezierLength` (src/engines/entity.cpp:50-76) are left out. They are unfinished and use floating-point trigonometry.
- `render` is only declared (include/engines/entity.h:145) and has no body, so it is left out.
- The `std::atomic` lock and dirty flags are plain booleans. Nothing in the modelled code uses them concurrently.
- `glDeleteVertexArrays` and `glDeleteBuffers` are a ghost log of the handles; the GPU itself is not modelled.
- `delete` of a segment is an entry in a ghost log. Dafny does not free memory.
- Entity.CleanUpSegmentList: the caller supplies the chain. It must be the distinct segments linked by `next` from the head, and either end in null or contain `head.prev`. The cleanup ends only if `head.prev` is set, because only then is the ring cut. Two rings are never cut, so their walks would not end. One closes through `next` alone back onto the head while `head.prev` is null (`NextOnlyRingIsNotCut`). The other closes back onto an interior segment while `head.prev` is off the chain. Both are excluded by the precondition rather than modelled as non-termination.
- Entity.PrimitiveController.ChangePose: the comment says "0 on success, -1 on error". For a bool, 0 is `false`, and the model returns `false`. No error case is described and no modelled operation sets the lock, so the model never fails.
- The SDL, OpenGL and ImGui setup and main loops are left out (src/app/basic_draw.cpp, src/core/renderer.cpp, src/app/imgui_demo.cpp, src/core/orchestrator.cpp). So is the float NDC mouse arithmetic.
- Qt layout, painting and signals are left out. This covers widget construction, `paintEvent`, `drawDebugBox`, `draw_debug_message`, `TestScreen`, `elidedText`, src/core/ui.cpp and src/app/mouse_tracker.cpp. `update()` is counted as a ghost repaint. The two `connect` calls become direct calls in `Panel.MouseMove`.
- Float-to-string formatting is left out. `std::to_string` of a float or double is the parameter `decimalText` (`show` in `FormatDebugMessage`). Its sample `main` is left out too.
- The member-pointer state containers and JSON I/O in include/core/base_state.h are left out, and so are the macros in include/core/base_updater.h.
- The SDL `EventRouter` in include/core/base_updater.h is left out: its template is ill-formed.
- The configuration headers hold constants and declarations only, and are not part of this model.
- SandboxDebugRegister.DebugRegister.GetDebugValueAtIdx: `back()` on an empty list is undefined behaviour in C++. The model requires a non-empty list for -1.
- Events.Event.IsInCategory: an event's category is one value below 32. The virtual `get_category_bit_flag` of the concrete event classes is not part of this model.
- DebugValues.DebugPointer: every pointer in the variant refers to a live cell, because the cells are non-null by type. A null `int*`, `bool*` or other pointer inside a `dbg_wc_ptr_t` makes `*ptr` undefined behaviour in C++. That case is excluded, not modelled.
- KeyCodes.KeyTable: Qt's keys are an abstract datatype. The real `Qt::Key` integer values are not modelled. `OtherKey`, `OtherModifier` and `OtherButton` stand for every unlisted Qt value.
- Console diagnostics are not modelled: the `std::cout` and `std::cerr` messages (src/sandbox/debug_printer.cpp:14, 40, 45, 89 and 106; src/sandbox/scripting.cpp:73 and 130) are output only.
- Integer overflow in `padding + (i + 1) * height` and in the box arithmetic is not modelled: those values are unbounded integers.
