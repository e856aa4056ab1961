/**
 * The builder for one injection method: an optional method name and the
 * list of parameter tuples added to it, in the order they were added.
 */
module Builder {
  import opened Wrappers
  import opened Php

  /** A parameter tuple `[name, class, required, default]`. */
  datatype ParameterTuple = ParameterTuple(name: string, cls: Option<string>, required: bool, default: Value)

  /**
   * The tuple `addParameter` appends. Name, class and default are kept as
   * given; the flag is the loose comparison `isRequired == null`, so it is
   * true for null, false, 0, 0.0, '' and the empty array, and false for
   * anything else, `true` and '0' included.
   */
  function NewParameter(name: string, cls: Option<string>, isRequired: Value, default: Value): (r: ParameterTuple)
    ensures r.name == name && r.cls == cls && r.default == default
    ensures r.required <==>
              isRequired == Null || isRequired == Bool(false) || isRequired == Int(0) || isRequired == Str("")
              || isRequired == Array([]) || (isRequired.Float? && IsZeroFloat(isRequired.bits))
    ensures isRequired == Bool(true) ==> !r.required
  {
    LooselyEqualsNullValues(isRequired);
    ParameterTuple(name, cls, if LooselyEqualsNull(isRequired) then true else false, default)
  }

  class InjectionMethod {
    var name: Option<string>
    var parameters: seq<ParameterTuple>

    /** A new builder has no name and no parameters. */
    constructor()
      ensures GetName() == None && GetParameters() == []
    {
      name := None;
      parameters := [];
    }

    /** `setName`: the name is replaced; the parameters are untouched. */
    method SetName(name: Option<string>)
      modifies this
      ensures GetName() == name
      ensures GetParameters() == old(GetParameters())
    {
      this.name := name;
    }

    /** `getName`. */
    function GetName(): Option<string>
      reads this
    {
      name
    }

    /**
     * `addParameter`: appends exactly one tuple at the end, with no
     * deduplication by name; earlier tuples and the name are untouched.
     */
    method AddParameter(name: string, cls: Option<string>, isRequired: Value, default: Value)
      modifies this
      ensures GetParameters() == old(GetParameters()) + [NewParameter(name, cls, isRequired, default)]
      ensures GetName() == old(GetName())
    {
      parameters := parameters + [NewParameter(name, cls, isRequired, default)];
    }

    /** `getParameters`: every added tuple, in insertion order. */
    function GetParameters(): seq<ParameterTuple>
      reads this
    {
      parameters
    }
  }
}
