/**
 * The debug-message formatter (src/sandbox/debug_printer.cpp): a list of labels
 * and a list of numbers, alternated into one line of text.
 */
module DebugPrinter {

  /** `enum class Mode {LEFT, RIGHT}`: which list leads when both are the same length. */
  datatype Mode = Left | Right

  /** Takes from a and b in turn, starting with a, for as long as a lasts: a[0], b[0], a[1], b[1], ... */
  function Weave(a: seq<string>, b: seq<string>): seq<string>
    decreases |a| + |b|
  {
    if a == [] then [] else [a[0]] + Weave(b, a[1..])
  }

  /** The lists can be woven without dropping anything: a equally long or one longer. */
  predicate Weavable(a: seq<string>, b: seq<string>)
  {
    |a| == |b| || |a| == |b| + 1
  }

  /** Weaving takes every element exactly once, a's at the even and b's at the odd positions. */
  lemma {:induction false} WeaveShape(a: seq<string>, b: seq<string>)
    requires Weavable(a, b)
    ensures |Weave(a, b)| == |a| + |b|
    ensures forall i :: 0 <= i < |a| ==> Weave(a, b)[2 * i] == a[i]
    ensures forall i :: 0 <= i < |b| ==> Weave(a, b)[2 * i + 1] == b[i]
    ensures multiset(Weave(a, b)) == multiset(a) + multiset(b)
    decreases |a| + |b|
  {
    if a != [] {
      WeaveShape(b, a[1..]);
      assert a == [a[0]] + a[1..];
      forall i | 0 <= i < |b|
        ensures Weave(a, b)[2 * i + 1] == b[i]
      {
        assert Weave(a, b)[2 * i + 1] == Weave(b, a[1..])[2 * i];
      }
      forall i | 1 <= i < |a|
        ensures Weave(a, b)[2 * i] == a[i]
      {
        assert Weave(a, b)[2 * i] == Weave(b, a[1..])[2 * (i - 1) + 1];
      }
    }
  }

  /** Adding one element to each of two equally long lists adds the pair at the end; with a one longer, the pair comes in the other order. */
  lemma {:induction false} WeaveSnoc(a: seq<string>, b: seq<string>, x: string, y: string)
    requires Weavable(a, b)
    ensures |a| == |b| ==> Weave(a + [x], b + [y]) == Weave(a, b) + [x, y]
    ensures |a| == |b| + 1 ==> Weave(a + [x], b + [y]) == Weave(a, b) + [y, x]
    decreases |a| + |b|
  {
    if a == [] {
      assert a + [x] == [x] && b + [y] == [y] && [x][1..] == [];
      assert Weave([x], [y]) == [x] + Weave([y], []);
      assert Weave([y], []) == [y] + Weave([], []);
    } else {
      assert (a + [x])[1..] == a[1..] + [x];
      WeaveSnoc(b, a[1..], y, x);
    }
  }

  /** The concatenation of a list of strings. */
  function Flatten(s: seq<string>): string
  {
    if s == [] then "" else Flatten(s[..|s| - 1]) + s[|s| - 1]
  }

  lemma FlattenAppendPair(s: seq<string>, x: string, y: string)
    ensures Flatten(s + [x, y]) == Flatten(s) + x + y
  {
    assert (s + [x, y])[..|s| + 1] == s + [x];
    assert (s + [x])[..|s|] == s;
  }

  /**
   * `interleave_and_append(list_1, list_2, string_container)`: on lists of equal
   * length, appends list_1[0], list_2[0], list_1[1], ... to the container and
   * reports success; otherwise reports failure and leaves the container alone.
   * The reference parameter becomes the `result` out-parameter.
   */
  method InterleaveAndAppend(list1: seq<string>, list2: seq<string>, container: string)
      returns (ok: bool, result: string)
    ensures ok <==> |list1| == |list2|
    ensures ok ==> result == container + Flatten(Weave(list1, list2))
    ensures !ok ==> result == container
  {
    if |list1| != |list2| {
      return false, container;
    }
    result := container;
    var i := 0;
    while i < |list1|
      invariant 0 <= i <= |list1|
      invariant result == container + Flatten(Weave(list1[..i], list2[..i]))
    {
      WeaveSnoc(list1[..i], list2[..i], list1[i], list2[i]);
      assert list1[..i + 1] == list1[..i] + [list1[i]];
      assert list2[..i + 1] == list2[..i] + [list2[i]];
      FlattenAppendPair(Weave(list1[..i], list2[..i]), list1[i], list2[i]);
      result := result + list1[i] + list2[i];
      i := i + 1;
    }
    assert list1[..i] == list1 && list2[..i] == list2;
    return true, result;
  }

  /** The two list lengths `format_debug_message` accepts: within one of each other, not both zero. */
  predicate Formattable(strings: nat, numbers: nat)
  {
    -1 <= strings - numbers <= 1 && !(strings == 0 && numbers == 0)
  }

  /**
   * The pieces of a debug message, in order: the longer list leads; on equal
   * lengths the labels lead in Left mode and the numbers in Right mode. Every
   * piece of both lists appears once, and the two lists alternate.
   */
  function Pieces(labels: seq<string>, numbers: seq<string>, alignment: Mode): (p: seq<string>)
    requires -1 <= |labels| - |numbers| <= 1
    ensures |p| == |labels| + |numbers|
    ensures multiset(p) == multiset(labels) + multiset(numbers)
    ensures |labels| > |numbers| || (|labels| == |numbers| && alignment == Left) ==>
      (forall i :: 0 <= i < |labels| ==> p[2 * i] == labels[i]) &&
      (forall i :: 0 <= i < |numbers| ==> p[2 * i + 1] == numbers[i])
    ensures |numbers| > |labels| || (|labels| == |numbers| && alignment == Right) ==>
      (forall i :: 0 <= i < |numbers| ==> p[2 * i] == numbers[i]) &&
      (forall i :: 0 <= i < |labels| ==> p[2 * i + 1] == labels[i])
  {
    if |numbers| > |labels| || (|labels| == |numbers| && alignment == Right) then
      WeaveShape(numbers, labels);
      Weave(numbers, labels)
    else
      WeaveShape(labels, numbers);
      Weave(labels, numbers)
  }

  /** `std::to_string` applied to every number, with the conversion as a parameter. */
  function Stringify<F>(numbers: seq<F>, show: F -> string): (r: seq<string>)
    ensures |r| == |numbers|
    ensures forall i :: 0 <= i < |numbers| ==> r[i] == show(numbers[i])
  {
    if numbers == [] then [] else [show(numbers[0])] + Stringify(numbers[1..], show)
  }

  /**
   * `format_debug_message(list_of_strings, list_of_floats, alignment)`: the empty
   * string when the lengths differ by more than one or both lists are empty;
   * otherwise the concatenation of the pieces, alternating and led as `Pieces` says.
   */
  method FormatDebugMessage<F>(labels: seq<string>, numbers: seq<F>, alignment: Mode, show: F -> string)
      returns (message: string)
    ensures !Formattable(|labels|, |numbers|) ==> message == ""
    ensures Formattable(|labels|, |numbers|) ==>
      message == Flatten(Pieces(labels, Stringify(numbers, show), alignment))
  {
    var ns := |numbers|;
    var ss := |labels|;
    if ns - ss > 1 || ss - ns > 1 {
      return "";
    } else if ns == 0 && ss == 0 {
      return "";
    } else if ns == 0 && ss == 1 {
      assert Flatten([labels[0]]) == Flatten([]) + labels[0];
      assert Weave(labels, []) == [labels[0]] + Weave([], labels[1..]);
      return labels[0];
    } else if ns == 1 && ss == 0 {
      assert Flatten([show(numbers[0])]) == Flatten([]) + show(numbers[0]);
      assert Stringify(numbers, show) == [show(numbers[0])];
      assert Weave([show(numbers[0])], []) == [show(numbers[0])] + Weave([], []);
      return show(numbers[0]);
    }

    var texts: seq<string> := [];
    var i := 0;
    while i < ns
      invariant 0 <= i <= ns
      invariant |texts| == i
      invariant forall j :: 0 <= j < i ==> texts[j] == show(numbers[j])
    {
      texts := texts + [show(numbers[i])];
      i := i + 1;
    }
    assert texts == Stringify(numbers, show);

    var ok;
    if ns > ss {
      ok, message := InterleaveAndAppend(labels, texts[1..], texts[0]);
      WeaveFirst(texts, labels);
    } else if ss > ns {
      ok, message := InterleaveAndAppend(texts, labels[1..], labels[0]);
      WeaveFirst(labels, texts);
    } else if alignment == Left {
      ok, message := InterleaveAndAppend(labels, texts, "");
      assert "" + Flatten(Weave(labels, texts)) == Flatten(Weave(labels, texts));
    } else {
      ok, message := InterleaveAndAppend(texts, labels, "");
      assert "" + Flatten(Weave(texts, labels)) == Flatten(Weave(texts, labels));
    }
  }

  /** Leading with a's first element and then weaving b with the rest of a is weaving a with b. */
  lemma WeaveFirst(a: seq<string>, b: seq<string>)
    requires a != []
    ensures Flatten(Weave(a, b)) == a[0] + Flatten(Weave(b, a[1..]))
  {
    FlattenPrepend(a[0], Weave(b, a[1..]));
  }

  lemma {:induction false} FlattenPrepend(x: string, s: seq<string>)
    ensures Flatten([x] + s) == x + Flatten(s)
  {
    if s != [] {
      assert ([x] + s)[..|s|] == [x] + s[..|s| - 1];
      FlattenPrepend(x, s[..|s| - 1]);
    }
  }
}
