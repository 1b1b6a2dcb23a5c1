/**
 * The widget-side debug register (src/ui/debug_register.cpp,
 * include/ui/debug_register.h): three lists kept in parallel, one entry per
 * registered debug line.
 */
module UiDebugRegister {
  import opened Wrappers
  import opened DebugValues

  class DebugRegister {
    var prefaces: seq<string>
    var pointers: seq<DebugPointer>
    var formatters: seq<Formatter>

    /** The lists have one length, so any of them can be used to append the next entry. */
    predicate Consistent()
      reads this
    {
      |pointers| == |prefaces| && |formatters| == |prefaces|
    }

    /** Consistent, and the i-th formatter formats the i-th preface and pointer. */
    ghost predicate Valid()
      reads this
    {
      Consistent() &&
      forall i :: 0 <= i < |prefaces| ==> formatters[i] == Formatter(prefaces[i], pointers[i])
    }

    constructor()
      ensures Valid() && prefaces == [] && pointers == [] && formatters == []
    {
      prefaces, pointers, formatters := [], [], [];
    }

    /** `confirmed_debug_data_is_consistent()`: throws a runtime_error unless the lists agree in length. */
    method ConfirmConsistent() returns (r: Result<()>)
      ensures r.Ok? <==> Consistent()
      ensures r.Thrown? ==> r.exception == RuntimeError("Inconsistent Data Fields.")
    {
      if |pointers| != |prefaces| || |formatters| != |prefaces| {
        return Thrown(RuntimeError("Inconsistent Data Fields."));
      }
      return Ok(());
    }

    /**
     * `register_new_message(preface, ptto_debug_value)`: after the consistency
     * check, appends the preface, the pointer and a formatter over the two, and
     * returns true. On inconsistent lists it throws before changing anything.
     */
    method RegisterNewMessage(preface: string, p: DebugPointer) returns (r: Result<bool>)
      modifies this
      ensures old(Consistent()) ==>
        r == Ok(true) &&
        prefaces == old(prefaces) + [preface] &&
        pointers == old(pointers) + [p] &&
        formatters == old(formatters) + [Formatter(preface, p)]
      ensures !old(Consistent()) ==>
        r == Thrown(RuntimeError("Inconsistent Data Fields.")) && unchanged(this)
      ensures old(Valid()) ==> Valid() && r == Ok(true)
      ensures r.Ok? ==> r.value
    {
      var check := ConfirmConsistent();
      if check.Thrown? {
        return Thrown(check.exception);
      }
      prefaces := prefaces + [preface];
      pointers := pointers + [p];
      formatters := formatters + [Formatter(preface, p)];
      return Ok(true);
    }
  }
}
