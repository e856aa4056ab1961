/**
 * The injection model: a resolved constructor parameter is either a literal
 * value (ValueInjection) or a type to fetch from the container at
 * construction time (TypeInjection).
 */
module Resolver {
  import opened Wrappers
  import opened Php
  import PhpArray

  datatype Injection = ValueInjection(value: Value) | TypeInjection(typeName: string)

  /** An injection together with the name of the parameter it satisfies. */
  datatype ResolvedParameter = ResolvedParameter(name: string, injection: Injection)

  datatype InjectionError =
    | LogicException     // export() of a value that cannot be written as PHP code
    | NotFound(id: string)  // the container has no entry for a type

  /** The container a TypeInjection is fetched from: identifier to instance. */
  type Container = map<string, Value>

  /**
   * A value can be written as PHP source: scalars and null; arrays whose
   * elements all can; objects whose class has a public static `__set_state`.
   * Resources never can.
   */
  predicate IsExportableValue(v: Value) {
    match v
    case Null => true
    case Bool(_) => true
    case Int(_) => true
    case Float(_) => true
    case Str(_) => true
    case Array(entries) => forall i :: 0 <= i < |entries| ==> IsExportableValue(entries[i].1)
    case Object(_, publicSetState) => publicSetState
    case Resource(_) => false
  }

  /**
   * `isExportable()`: a TypeInjection always is; a ValueInjection is exactly
   * when no resource and no object without a public `__set_state` occurs in
   * its value.
   */
  predicate IsExportable(inj: Injection)
    ensures IsExportable(inj) <==>
              inj.TypeInjection? || !exists v :: Occurs(v, inj.value) && IsUnexportableLeaf(v)
  {
    match inj
    case ValueInjection(v) => ExportableIffNoUnexportableLeaf(v); IsExportableValue(v)
    case TypeInjection(_) => true
  }

  /** `v` appears in `w`: it is `w` itself or appears in one of the elements of array `w`. */
  predicate Occurs(v: Value, w: Value) {
    v == w || (w.Array? && exists i :: 0 <= i < |w.entries| && Occurs(v, w.entries[i].1))
  }

  /** The values that make any value holding them unexportable. */
  predicate IsUnexportableLeaf(v: Value) {
    v.Resource? || (v.Object? && !v.publicSetState)
  }

  /**
   * The recursive check agrees with a direct description: a value is
   * exportable exactly when no resource and no object without a public
   * `__set_state` appears in it, at any depth.
   */
  lemma {:induction false} ExportableIffNoUnexportableLeaf(w: Value)
    ensures IsExportableValue(w) <==> !exists v :: Occurs(v, w) && IsUnexportableLeaf(v)
  {
    match w
    case Array(entries) =>
      if IsExportableValue(w) {
        forall v | Occurs(v, w) ensures !IsUnexportableLeaf(v) {
          if v != w {
            var i :| 0 <= i < |entries| && Occurs(v, entries[i].1);
            ExportableIffNoUnexportableLeaf(entries[i].1);
          }
        }
      } else {
        var i :| 0 <= i < |entries| && !IsExportableValue(entries[i].1);
        ExportableIffNoUnexportableLeaf(entries[i].1);
        var v :| Occurs(v, entries[i].1) && IsUnexportableLeaf(v);
        assert Occurs(v, w);
      }
    case _ =>
      assert Occurs(w, w);
  }

  /** Placeholder text for a float; PHP's decimal float formatting is not modelled. */
  function FloatText(bits: bv64): (t: string)
    ensures |t| > 0
  {
    "(float)" + NatToDecimal(bits as nat)
  }

  /** `var_export($k, true)` for an array key. */
  function ExportKey(k: Key): (t: string)
    ensures |t| > 0
  {
    match k
    case IntKey(i) => IntToDecimal(i)
    case StrKey(s) => ExportString(s)
  }

  /** Concatenation of a list of strings. */
  function Concat(parts: seq<string>): string {
    if parts == [] then "" else parts[0] + Concat(parts[1..])
  }

  /**
   * The text `var_export($v, true)` gives for an exportable value, with the
   * layout of nested arrays simplified.
   */
  function ExportValueText(v: Value): (t: string)
    requires IsExportableValue(v)
    ensures |t| > 0
  {
    match v
    case Null => "NULL"
    case Bool(b) => if b then "true" else "false"
    case Int(i) => IntToDecimal(i)
    case Float(bits) => FloatText(bits)
    case Str(s) => ExportString(s)
    case Array(entries) =>
      "array (\n"
      + Concat(seq(|entries|, i requires 0 <= i < |entries| =>
                     "  " + ExportKey(entries[i].0) + " => " + ExportValueText(entries[i].1) + ",\n"))
      + ")"
    case Object(className, _) => "\\" + className + "::__set_state(array(\n))"
  }

  /**
   * `export()`: PHP source text for the injection, or a LogicException when
   * the wrapped value cannot be exported. A TypeInjection exports its type
   * name as a string literal.
   */
  function Export(inj: Injection): (r: Result<string, InjectionError>)
    ensures r.Ok? <==> IsExportable(inj)
    ensures r.Ok? ==> |r.value| > 0
    ensures r.Err? ==> r.error == LogicException
  {
    match inj
    case TypeInjection(t) => Ok(ExportString(t))
    case ValueInjection(v) => if IsExportableValue(v) then Ok(ExportValueText(v)) else Err(LogicException)
  }

  /**
   * `toValue($container)`: a ValueInjection yields its value; a
   * TypeInjection asks the container for its type.
   */
  function ToValue(inj: Injection, container: Container): (r: Result<Value, InjectionError>)
    ensures inj.ValueInjection? ==> r == Ok(inj.value)
    ensures inj.TypeInjection? ==> (r.Ok? <==> inj.typeName in container)
    ensures inj.TypeInjection? && r.Err? ==> r.error == NotFound(inj.typeName)
  {
    match inj
    case ValueInjection(v) => Ok(v)
    case TypeInjection(t) => if t in container then Ok(container[t]) else Err(NotFound(t))
  }

  /**
   * A ValueInjection yields exactly its value whatever the container holds:
   * the container is never asked for anything.
   */
  lemma ToValueIgnoresContainer(v: Value, c1: Container, c2: Container)
    ensures ToValue(ValueInjection(v), c1) == ToValue(ValueInjection(v), c2) == Ok(v)
  {
  }

  /**
   * `ValueInjection::__set_state($state)`: rebuilds the injection from the
   * array `var_export` writes for it. A missing 'value' entry reads as null.
   */
  function SetState(state: PhpArray.OrderedMap<Key, Value>): (r: Injection)
    ensures r.ValueInjection?
    ensures PhpArray.HasKey(state, StrKey("value")) ==> Some(r.value) == PhpArray.Get(state, StrKey("value"))
    ensures !PhpArray.HasKey(state, StrKey("value")) ==> r.value == Null
  {
    match PhpArray.Get(state, StrKey("value"))
    case Some(v) => ValueInjection(v)
    case None => ValueInjection(Null)
  }

  /** `__set_state(['value' => $v])` gives an injection whose `toValue()` is `$v`. */
  lemma SetStateRoundTrip(v: Value, c: Container)
    ensures ToValue(SetState([(StrKey("value"), v)]), c) == Ok(v)
  {
  }

  /** The signal `getValue()` raises besides returning its value. */
  datatype Notice = DeprecatedNotice(message: string)

  /**
   * The deprecated `getValue()` of a ValueInjection: the wrapped value, and
   * one deprecation notice per call.
   */
  function GetValue(inj: Injection): (r: (Value, seq<Notice>))
    requires inj.ValueInjection?
    ensures forall c :: ToValue(inj, c) == Ok(r.0)
    ensures |r.1| == 1
  {
    (inj.value, [DeprecatedNotice("ValueInjection::getValue is deprecated, please migrate to ValueInjection::toValue().")])
  }

  /** The values the exportable-value cases of the tests use: all exportable. */
  lemma ExportableExamples(f: bv64, time: int, uniqid: string)
    ensures IsExportableValue(Str("Testvalue")) && IsExportableValue(Int(124342)) && IsExportableValue(Str(uniqid))
    ensures IsExportableValue(Int(time)) && IsExportableValue(Bool(true)) && IsExportableValue(Bool(false))
    ensures IsExportableValue(Null) && IsExportableValue(Float(f)) && IsExportableValue(Object("ExportableValue", true))
    ensures IsExportableValue(Array([]))
    ensures IsExportableValue(Array([(IntKey(0), Str("TestValue")), (IntKey(1), Str("OtherValue"))]))
    ensures IsExportableValue(Array([(IntKey(0), Int(123)), (IntKey(1), Int(456))]))
    ensures IsExportableValue(Array([(IntKey(0), Object("ExportableValue", true)),
                                     (IntKey(1), Array([(IntKey(0), Int(1))])),
                                     (IntKey(2), Null),
                                     (IntKey(3), Bool(false)),
                                     (IntKey(4), Bool(true)),
                                     (IntKey(5), Int(time)),
                                     (IntKey(6), Float(f)),
                                     (IntKey(7), Array([(IntKey(0), Array([])), (IntKey(1), Array([]))])),
                                     (IntKey(8), Str(uniqid)),
                                     (IntKey(9), Array([]))]))
  {
    var nested := Array([(IntKey(0), Array([])), (IntKey(1), Array([]))]);
    assert IsExportableValue(nested.entries[0].1) && IsExportableValue(nested.entries[1].1);
  }

  /** The unexportable cases of the tests: a stream, objects without a public `__set_state`, arrays holding one. */
  lemma UnexportableExamples(stream: nat)
    ensures !IsExportableValue(Resource(stream))
    ensures !IsExportableValue(Object("UnexportableValue1", false))
    ensures !IsExportableValue(Array([(IntKey(0), Object("UnexportableValue1", false))]))
    ensures Export(ValueInjection(Array([(IntKey(0), Object("UnexportableValue2", false))]))) == Err(LogicException)
  {
    var a := Array([(IntKey(0), Object("UnexportableValue1", false))]);
    assert !IsExportableValue(a.entries[0].1);
    var b := Array([(IntKey(0), Object("UnexportableValue2", false))]);
    assert !IsExportableValue(b.entries[0].1);
  }
}
