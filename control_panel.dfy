/**
 * The control panel's debug display (src/ui/control_panel.cpp,
 * include/ui/control_panel.h): a table of text lines, each registered under a
 * prefix and then updated in place by index.
 */
module ControlPanel {
  import opened Wrappers
  import opened CppInt
  import opened DebugValues

  /** The placement `update_boundaries` computes for line i: x, y of its lower-left corner and its width in characters. */
  function TrackerPosition(i: nat, padding: int, fontHeight: int, widgetWidth: int, averageCharWidth: int): seq<int>
    requires averageCharWidth > 0
  {
    [padding, padding + (i + 1) * fontHeight, CDiv(widgetWidth - 2 * padding, averageCharWidth)]
  }

  /** With a positive font height, each line's baseline lies strictly below the one before. */
  lemma BaselinesDescend(i: nat, j: nat, padding: int, fontHeight: int, widgetWidth: int, averageCharWidth: int)
    requires averageCharWidth > 0 && fontHeight > 0 && i < j
    ensures TrackerPosition(i, padding, fontHeight, widgetWidth, averageCharWidth)[1]
          < TrackerPosition(j, padding, fontHeight, widgetWidth, averageCharWidth)[1]
  {
    assert (i + 1) * fontHeight < (j + 1) * fontHeight;
  }

  class DebugDisplay {
    var lines: seq<string>
    var prefixes: seq<string>
    var trackerPositions: seq<seq<int>>
    const padding: int
    /** The font metrics `height()` and `averageCharWidth()`, positive. */
    const fontHeight: int
    const averageCharWidth: int
    /** How many repaints `update()` has scheduled. */
    ghost var repaints: nat

    /** Every line has its stored prefix. */
    ghost predicate Valid()
      reads this
    {
      |lines| == |prefixes| && fontHeight > 0 && averageCharWidth > 0
    }

    /** `DebugDisplay(parent)`: no lines, padding 5, and one placeholder position {0, 0, 0, 0}. */
    constructor(fontHeight: int, averageCharWidth: int)
      requires fontHeight > 0 && averageCharWidth > 0
      ensures Valid()
      ensures lines == [] && prefixes == [] && trackerPositions == [[0, 0, 0, 0]]
      ensures padding == 5 && this.fontHeight == fontHeight && this.averageCharWidth == averageCharWidth
      ensures repaints == 0
    {
      lines, prefixes := [], [];
      trackerPositions := [[0, 0, 0, 0]];
      padding := 5;
      this.fontHeight := fontHeight;
      this.averageCharWidth := averageCharWidth;
      repaints := 0;
    }

    /** `register_debug_line(prefix)`: a new line reading "prefix: (NaN)" under the stored prefix "prefix: "; returns its index. */
    method RegisterDebugLine(prefix: string) returns (index: int)
      modifies this`lines, this`prefixes
      ensures index == |old(lines)|
      ensures lines == old(lines) + [prefix + ": (NaN)"]
      ensures prefixes == old(prefixes) + [prefix + ": "]
      ensures old(Valid()) ==> Valid()
    {
      lines := lines + [prefix + ": (NaN)"];
      prefixes := prefixes + [prefix + ": "];
      index := |lines| - 1;
    }

    /** `update_boundaries()`: one position per line, recomputed for the current widget width. */
    method UpdateBoundaries(widgetWidth: int)
      requires averageCharWidth > 0
      modifies this`trackerPositions
      ensures |trackerPositions| == |lines|
      ensures forall i :: 0 <= i < |lines| ==>
        trackerPositions[i] == TrackerPosition(i, padding, fontHeight, widgetWidth, averageCharWidth)
    {
      trackerPositions := [];
      var i := 0;
      while i < |lines|
        invariant 0 <= i <= |lines|
        invariant |trackerPositions| == i
        invariant forall k :: 0 <= k < i ==>
          trackerPositions[k] == TrackerPosition(k, padding, fontHeight, widgetWidth, averageCharWidth)
      {
        var x := padding;
        var y := padding + (i + 1) * fontHeight;
        var w := widgetWidth - 2 * padding;
        var maxChars := if w >= 0 then w / averageCharWidth else -((-w) / averageCharWidth);
        trackerPositions := trackerPositions + [[x, y, maxChars]];
        i := i + 1;
      }
    }

    /** `update_debug_display(formatted_line, pos_idx)`: an in-range index replaces that line and schedules a repaint; any other index changes nothing. */
    method UpdateDebugDisplay(line: string, index: int)
      modifies this`lines, this`repaints
      ensures 0 <= index < |old(lines)| ==> lines == old(lines)[index := line] && repaints == old(repaints) + 1
      ensures !(0 <= index < |old(lines)|) ==> lines == old(lines) && repaints == old(repaints)
      ensures |lines| == |old(lines)|
    {
      if index < 0 || index >= |lines| {
        return;
      }
      lines := lines[index := line];
      repaints := repaints + 1;
    }

    /**
     * The three `update_tracker_*` slots: `debug_prefixes.at(pos_idx)` throws
     * out_of_range on a bad index before anything changes; otherwise the stored
     * prefix followed by the value's text goes to `update_debug_display`.
     */
    method UpdateTracker(valueText: string, index: int) returns (r: Result<()>)
      modifies this`lines, this`repaints
      ensures !(0 <= index < |prefixes|) ==> r == Thrown(OutOfRange) && lines == old(lines) && repaints == old(repaints)
      ensures 0 <= index < |prefixes| && index < |old(lines)| ==>
        r == Ok(()) && lines == old(lines)[index := prefixes[index] + valueText] && repaints == old(repaints) + 1
      ensures 0 <= index < |prefixes| && index >= |old(lines)| ==> r == Ok(()) && lines == old(lines) && repaints == old(repaints)
      ensures old(Valid()) ==> Valid()
    {
      if index < 0 || index >= |prefixes| {
        return Thrown(OutOfRange);
      }
      UpdateDebugDisplay(prefixes[index] + valueText, index);
      return Ok(());
    }

    /** `update_tracker_int(value, pos_idx)`. */
    method UpdateTrackerInt(value: int32, index: int) returns (r: Result<()>)
      modifies this`lines, this`repaints
      ensures !(0 <= index < |prefixes|) ==> r == Thrown(OutOfRange) && lines == old(lines) && repaints == old(repaints)
      ensures 0 <= index < |prefixes| && index < |old(lines)| ==>
        r == Ok(()) && lines == old(lines)[index := prefixes[index] + IntText(value)] && repaints == old(repaints) + 1
      ensures 0 <= index < |prefixes| && index >= |old(lines)| ==> r == Ok(()) && lines == old(lines) && repaints == old(repaints)
      ensures old(Valid()) ==> Valid()
    {
      r := UpdateTracker(IntText(value), index);
    }

    /** `update_tracker_float(value, pos_idx)`, with `std::to_string(float)` as a parameter. */
    method UpdateTrackerFloat(value: real, index: int, decimalText: real -> string) returns (r: Result<()>)
      modifies this`lines, this`repaints
      ensures !(0 <= index < |prefixes|) ==> r == Thrown(OutOfRange) && lines == old(lines) && repaints == old(repaints)
      ensures 0 <= index < |prefixes| && index < |old(lines)| ==>
        r == Ok(()) && lines == old(lines)[index := prefixes[index] + decimalText(value)] && repaints == old(repaints) + 1
      ensures 0 <= index < |prefixes| && index >= |old(lines)| ==> r == Ok(()) && lines == old(lines) && repaints == old(repaints)
      ensures old(Valid()) ==> Valid()
    {
      r := UpdateTracker(decimalText(value), index);
    }

    /** `update_tracker_string(value, pos_idx)`. */
    method UpdateTrackerString(value: string, index: int) returns (r: Result<()>)
      modifies this`lines, this`repaints
      ensures !(0 <= index < |prefixes|) ==> r == Thrown(OutOfRange) && lines == old(lines) && repaints == old(repaints)
      ensures 0 <= index < |prefixes| && index < |old(lines)| ==>
        r == Ok(()) && lines == old(lines)[index := prefixes[index] + value] && repaints == old(repaints) + 1
      ensures 0 <= index < |prefixes| && index >= |old(lines)| ==> r == Ok(()) && lines == old(lines) && repaints == old(repaints)
      ensures old(Valid()) ==> Valid()
    {
      r := UpdateTracker(value, index);
    }
  }

  /** The panel's part in the debug display: it registers the two mouse lines and feeds them on every mouse move. */
  class Panel {
    const display: DebugDisplay
    var mouseXIdx: int
    var mouseYIdx: int

    ghost predicate Valid()
      reads this, display
    {
      display.Valid() &&
      display.prefixes == ["Mouse X: ", "Mouse Y: "] && |display.lines| == 2 &&
      mouseXIdx == 0 && mouseYIdx == 1
    }

    /** `ControlPanel(parent)`, debug-display part: "Mouse X" gets index 0 and "Mouse Y" index 1. */
    constructor(fontHeight: int, averageCharWidth: int)
      requires fontHeight > 0 && averageCharWidth > 0
      ensures fresh(display) && Valid()
      ensures mouseXIdx == 0 && mouseYIdx == 1
      ensures display.lines == ["Mouse X: (NaN)", "Mouse Y: (NaN)"]
    {
      var d := new DebugDisplay(fontHeight, averageCharWidth);
      var xIdx := d.RegisterDebugLine("Mouse X");
      var yIdx := d.RegisterDebugLine("Mouse Y");
      display := d;
      mouseXIdx, mouseYIdx := xIdx, yIdx;
      assert "Mouse X" + ": " == "Mouse X: " && "Mouse Y" + ": " == "Mouse Y: ";
      assert "Mouse X" + ": (NaN)" == "Mouse X: (NaN)" && "Mouse Y" + ": (NaN)" == "Mouse Y: (NaN)";
    }

    /** `mouseMoveEvent(event)`: the two signals, connected to `update_tracker_int`, rewrite both mouse lines. */
    method MouseMove(x: int32, y: int32)
      requires Valid()
      modifies display`lines, display`repaints
      ensures Valid()
      ensures display.lines == ["Mouse X: " + IntText(x), "Mouse Y: " + IntText(y)]
      ensures display.repaints == old(display.repaints) + 2
    {
      var rx := display.UpdateTrackerInt(x, mouseXIdx);
      var ry := display.UpdateTrackerInt(y, mouseYIdx);
    }
  }
}
