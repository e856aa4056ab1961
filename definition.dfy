/**
 * The definition of one class's injectable surface: its supertypes, an
 * optional instantiator, its injection methods with a required flag each,
 * and each method's parameters keyed by their fully qualified name.
 */
module Definition {
  import opened Wrappers
  import opened Php
  import PhpArray

  /** A parameter tuple `[name, type, required, default]`. */
  datatype Parameter = Parameter(name: string, declaredType: Value, required: bool, default: Value)

  /** The method name PHP reserves for constructors. */
  const Constructor: string := "__construct"

  /**
   * The flag `addMethod` stores: an explicit flag cast to bool, or, for null,
   * true exactly for the constructor.
   */
  function MethodRequirement(methodName: string, isRequired: Value): (r: bool)
    ensures isRequired == Null ==> (r <==> methodName == Constructor)
    ensures isRequired.Bool? ==> r == isRequired.b
    ensures isRequired.Int? ==> (r <==> isRequired.i != 0)
  {
    if isRequired == Null then methodName == Constructor else ToBool(isRequired)
  }

  /** `isset($info[$key])`: the key is present and its value is not null. */
  predicate Isset(info: PhpArray.OrderedMap<Key, Value>, key: string) {
    match PhpArray.Get(info, StrKey(key))
    case Some(v) => v != Null
    case None => false
  }

  /** `$info[$key]` when `Isset(info, key)`. */
  function Lookup(info: PhpArray.OrderedMap<Key, Value>, key: string): Value
    requires Isset(info, key)
  {
    PhpArray.Get(info, StrKey(key)).value
  }

  /**
   * The tuple `addMethodParameter` stores for `name`: missing `type` and
   * `default` become null, a missing `required` becomes false, a given one
   * is cast to bool. A null entry reads the same as a missing one.
   */
  function ParameterFromInfo(name: string, info: PhpArray.OrderedMap<Key, Value>): (r: Parameter)
    ensures r.name == name
    ensures r.declaredType == PhpArray.Get(info, StrKey("type")).GetOr(Null)
    ensures r.default == PhpArray.Get(info, StrKey("default")).GetOr(Null)
    ensures r.required == ToBool(PhpArray.Get(info, StrKey("required")).GetOr(Null))
    ensures info == [] ==> r == Parameter(name, Null, false, Null)
  {
    Parameter(
      name,
      if Isset(info, "type") then Lookup(info, "type") else Null,
      if Isset(info, "required") then ToBool(Lookup(info, "required")) else false,
      if Isset(info, "default") then Lookup(info, "default") else Null)
  }

  /** The key a parameter is stored under: `class::method:name`. */
  function FqName(className: string, methodName: string, parameterName: string): string {
    className + "::" + methodName + ":" + parameterName
  }

  /** Within one class and method, distinct parameters get distinct keys. */
  lemma FqNameInjective(className: string, methodName: string, p1: string, p2: string)
    requires FqName(className, methodName, p1) == FqName(className, methodName, p2)
    ensures p1 == p2
  {
    var prefix := className + "::" + methodName + ":";
    assert FqName(className, methodName, p1) == prefix + p1;
    assert FqName(className, methodName, p2) == prefix + p2;
    assert p1 == (prefix + p1)[|prefix|..];
    assert p2 == (prefix + p2)[|prefix|..];
  }

  /** One method's parameters: distinct keys, each the parameter's fully qualified name. */
  predicate ParametersKeyed(className: string, methodName: string, parameters: PhpArray.OrderedMap<string, Parameter>) {
    && PhpArray.UniqueKeys(parameters)
    && forall q :: q in parameters ==> q.0 == FqName(className, methodName, q.1.name)
  }

  /**
   * The invariant of a class definition's tables: keys are distinct, every
   * method with a parameter list is registered as a method, and every
   * parameter is stored under its fully qualified name.
   */
  predicate Consistent(className: string, methods: PhpArray.OrderedMap<string, bool>,
                       table: PhpArray.OrderedMap<string, PhpArray.OrderedMap<string, Parameter>>) {
    && PhpArray.UniqueKeys(methods)
    && PhpArray.UniqueKeys(table)
    && forall e :: e in table ==> ParametersKeyed(className, e.0, e.1) && PhpArray.HasKey(methods, e.0)
  }

  /** The method table once `methodName` is registered, with the default flag if it was new. */
  function WithMethod(methods: PhpArray.OrderedMap<string, bool>, methodName: string): PhpArray.OrderedMap<string, bool> {
    if PhpArray.HasKey(methods, methodName) then methods else PhpArray.Put(methods, methodName, methodName == Constructor)
  }

  /** The parameter table once one parameter is stored under `class::method:name`. */
  function StoreParameter(className: string, table: PhpArray.OrderedMap<string, PhpArray.OrderedMap<string, Parameter>>,
                          methodName: string, parameterName: string, info: PhpArray.OrderedMap<Key, Value>)
    : PhpArray.OrderedMap<string, PhpArray.OrderedMap<string, Parameter>>
  {
    PhpArray.Put(table, methodName,
                 PhpArray.Put(PhpArray.Get(table, methodName).GetOr([]), FqName(className, methodName, parameterName),
                              ParameterFromInfo(parameterName, info)))
  }

  /** Setting a method's flag keeps the tables consistent. */
  lemma AddMethodKeepsConsistent(className: string, methods: PhpArray.OrderedMap<string, bool>,
                                 table: PhpArray.OrderedMap<string, PhpArray.OrderedMap<string, Parameter>>,
                                 methodName: string, required: bool)
    requires Consistent(className, methods, table)
    ensures Consistent(className, PhpArray.Put(methods, methodName, required), table)
  {
    PhpArray.PutKeepsUniqueKeys(methods, methodName, required);
    forall e | e in table
      ensures PhpArray.HasKey(PhpArray.Put(methods, methodName, required), e.0)
    {
      PhpArray.PutGet(methods, methodName, required, e.0);
    }
  }

  /** Registering a method keeps its flag if it had one and gives it the default flag otherwise. */
  lemma WithMethodFlags(methods: PhpArray.OrderedMap<string, bool>, methodName: string, m: string)
    ensures PhpArray.Get(WithMethod(methods, methodName), m)
            == if m == methodName then Some(PhpArray.Get(methods, m).GetOr(m == Constructor))
               else PhpArray.Get(methods, m)
  {
    if !PhpArray.HasKey(methods, methodName) {
      PhpArray.PutGet(methods, methodName, methodName == Constructor, m);
    }
  }

  /** Storing a parameter registers its method and keeps the tables consistent. */
  lemma {:induction false} StoreParameterKeepsConsistent(
      className: string, methods: PhpArray.OrderedMap<string, bool>,
      table: PhpArray.OrderedMap<string, PhpArray.OrderedMap<string, Parameter>>,
      methodName: string, parameterName: string, info: PhpArray.OrderedMap<Key, Value>)
    requires Consistent(className, methods, table)
    ensures Consistent(className, WithMethod(methods, methodName),
                       StoreParameter(className, table, methodName, parameterName, info))
  {
    var methods' := WithMethod(methods, methodName);
    if !PhpArray.HasKey(methods, methodName) {
      PhpArray.PutKeepsUniqueKeys(methods, methodName, methodName == Constructor);
    }
    var parameters := PhpArray.Get(table, methodName).GetOr([]);
    assert ParametersKeyed(className, methodName, parameters) by {
      if PhpArray.HasKey(table, methodName) {
        PhpArray.GetIsEntry(table, methodName);
      }
    }
    var fqName := FqName(className, methodName, parameterName);
    var parameter := ParameterFromInfo(parameterName, info);
    var updated := PhpArray.Put(parameters, fqName, parameter);
    PhpArray.PutKeepsUniqueKeys(parameters, fqName, parameter);
    PhpArray.PutEntries(parameters, fqName, parameter);
    assert ParametersKeyed(className, methodName, updated);
    var table' := PhpArray.Put(table, methodName, updated);
    assert table' == StoreParameter(className, table, methodName, parameterName, info);
    PhpArray.PutKeepsUniqueKeys(table, methodName, updated);
    PhpArray.PutEntries(table, methodName, updated);
    forall e | e in table'
      ensures PhpArray.HasKey(methods', e.0)
    {
      WithMethodFlags(methods, methodName, e.0);
    }
  }

  /**
   * After storing a parameter, its method's list reads it back under its
   * fully qualified name, and every other method's list is as before.
   */
  lemma StoreParameterEffect(className: string, table: PhpArray.OrderedMap<string, PhpArray.OrderedMap<string, Parameter>>,
                             methodName: string, parameterName: string, info: PhpArray.OrderedMap<Key, Value>, m: string)
    ensures var table' := StoreParameter(className, table, methodName, parameterName, info);
      && PhpArray.HasKey(table', methodName)
      && PhpArray.Get(PhpArray.Get(table', methodName).value, FqName(className, methodName, parameterName))
         == Some(ParameterFromInfo(parameterName, info))
      && (m != methodName ==> PhpArray.Get(table', m) == PhpArray.Get(table, m))
  {
    var parameters := PhpArray.Get(table, methodName).GetOr([]);
    var fqName := FqName(className, methodName, parameterName);
    var updated := PhpArray.Put(parameters, fqName, ParameterFromInfo(parameterName, info));
    PhpArray.PutGet(table, methodName, updated, methodName);
    PhpArray.PutGet(table, methodName, updated, m);
    PhpArray.PutGet(parameters, fqName, ParameterFromInfo(parameterName, info), fqName);
  }

  /** Storing a parameter leaves the method's other parameters, and a new method's none, as they were. */
  lemma StoreParameterKeepsOthers(className: string, table: PhpArray.OrderedMap<string, PhpArray.OrderedMap<string, Parameter>>,
                                  methodName: string, parameterName: string, info: PhpArray.OrderedMap<Key, Value>,
                                  otherName: string)
    requires otherName != parameterName
    ensures var table' := StoreParameter(className, table, methodName, parameterName, info);
      && PhpArray.HasKey(table', methodName)
      && PhpArray.Get(PhpArray.Get(table', methodName).value, FqName(className, methodName, otherName))
      == PhpArray.Get(PhpArray.Get(table, methodName).GetOr([]), FqName(className, methodName, otherName))
  {
    var parameters := PhpArray.Get(table, methodName).GetOr([]);
    var fqName := FqName(className, methodName, parameterName);
    var updated := PhpArray.Put(parameters, fqName, ParameterFromInfo(parameterName, info));
    PhpArray.PutGet(table, methodName, updated, methodName);
    if FqName(className, methodName, otherName) == fqName {
      FqNameInjective(className, methodName, otherName, parameterName);
    }
    PhpArray.PutGet(parameters, fqName, ParameterFromInfo(parameterName, info), FqName(className, methodName, otherName));
  }

  class ClassDefinition {
    const className: string
    var supertypes: seq<string>
    var instantiator: Value
    var methods: PhpArray.OrderedMap<string, bool>
    var methodParameters: PhpArray.OrderedMap<string, PhpArray.OrderedMap<string, Parameter>>

    /** The tables keep the invariant `Consistent` describes. */
    ghost predicate Valid()
      reads this
    {
      Consistent(className, methods, methodParameters)
    }

    constructor(className: string)
      ensures Valid()
      ensures this.className == className
      ensures supertypes == [] && instantiator == Null && methods == [] && methodParameters == []
    {
      this.className := className;
      supertypes := [];
      instantiator := Null;
      methods := [];
      methodParameters := [];
    }

    /** `setInstantiator`: replaces the instantiator. */
    method SetInstantiator(instantiator: Value)
      requires Valid()
      modifies this
      ensures Valid()
      ensures this.instantiator == instantiator && GetInstantiator(className) == instantiator
      ensures supertypes == old(supertypes) && methods == old(methods) && methodParameters == old(methodParameters)
    {
      this.instantiator := instantiator;
    }

    /** `setSupertypes`: replaces the supertypes. */
    method SetSupertypes(supertypes: seq<string>)
      requires Valid()
      modifies this
      ensures Valid()
      ensures this.supertypes == supertypes && GetClassSupertypes(className) == supertypes
      ensures instantiator == old(instantiator) && methods == old(methods) && methodParameters == old(methodParameters)
    {
      this.supertypes := supertypes;
    }

    /**
     * `addMethod`: records the method with its required flag (for null, true
     * exactly for the constructor), overwriting an earlier flag in place.
     */
    method AddMethod(methodName: string, isRequired: Value)
      requires Valid()
      modifies this
      ensures Valid()
      ensures methods == PhpArray.Put(old(methods), methodName, MethodRequirement(methodName, isRequired))
      ensures PhpArray.Get(methods, methodName) == Some(MethodRequirement(methodName, isRequired))
      ensures forall m :: m != methodName ==> PhpArray.Get(methods, m) == PhpArray.Get(old(methods), m)
      ensures supertypes == old(supertypes) && instantiator == old(instantiator)
      ensures methodParameters == old(methodParameters)
    {
      var required := isRequired;
      if required == Null {
        required := Bool(methodName == Constructor);
      }
      AddMethodKeepsConsistent(className, methods, methodParameters, methodName, ToBool(required));
      forall m {
        PhpArray.PutGet(methods, methodName, ToBool(required), m);
      }
      methods := PhpArray.Put(methods, methodName, ToBool(required));
    }

    /**
     * `addMethodParameter`: registers the method (with the default flag) if
     * it is new, gives it an empty parameter list if it has none, then stores
     * the parameter under `class::method:name`, overwriting an earlier
     * parameter of that name.
     */
    method AddMethodParameter(methodName: string, parameterName: string, info: PhpArray.OrderedMap<Key, Value>)
      requires Valid()
      modifies this
      ensures Valid()
      ensures methods == WithMethod(old(methods), methodName)
      ensures methodParameters == StoreParameter(className, old(methodParameters), methodName, parameterName, info)
      ensures HasMethod(className, methodName) == Some(true) && HasMethodParameters(className, methodName)
      ensures supertypes == old(supertypes) && instantiator == old(instantiator)
    {
      StoreParameterKeepsConsistent(className, methods, methodParameters, methodName, parameterName, info);
      StoreParameterEffect(className, methodParameters, methodName, parameterName, info, methodName);
      WithMethodFlags(methods, methodName, methodName);
      ghost var table := methodParameters;
      if !PhpArray.HasKey(methods, methodName) {
        methods := PhpArray.Put(methods, methodName, methodName == Constructor);
      }
      if !PhpArray.HasKey(methodParameters, methodName) {
        PhpArray.PutGet(methodParameters, methodName, [], methodName);
        methodParameters := PhpArray.Put(methodParameters, methodName, []);
      }
      var parameter := ParameterFromInfo(parameterName, info);
      var fqName := className + "::" + methodName + ":" + parameterName;
      var parameters := PhpArray.Get(methodParameters, methodName).value;
      assert parameters == PhpArray.Get(table, methodName).GetOr([]);
      PhpArray.PutOverwrites(table, methodName, [], PhpArray.Put(parameters, fqName, parameter));
      methodParameters := PhpArray.Put(methodParameters, methodName, PhpArray.Put(parameters, fqName, parameter));
    }

    /** `getClasses`: the one class this definition is about. */
    function GetClasses(): (r: seq<string>)
      reads this
      ensures |r| == 1 && r[0] == className
    {
      [className]
    }

    /** `hasClass`: strict comparison with the owning class. */
    predicate HasClass(c: string)
      reads this
      ensures HasClass(c) <==> c in GetClasses()
    {
      c == className
    }

    /** `getClassSupertypes`: empty for any class but the owning one. */
    function GetClassSupertypes(c: string): (r: seq<string>)
      reads this
      ensures c != className ==> r == []
      ensures c == className ==> r == supertypes
    {
      if className != c then [] else supertypes
    }

    /** `getInstantiator`: null for any class but the owning one. */
    function GetInstantiator(c: string): (r: Value)
      reads this
      ensures c != className ==> r == Null
      ensures c == className ==> r == instantiator
    {
      if className != c then Null else instantiator
    }

    /** `hasMethods`: whether any method is registered, whatever class is asked about. */
    predicate HasMethods(c: string)
      reads this
      ensures HasMethods(c) <==> exists m :: PhpArray.Get(methods, m).Some?
    {
      assert methods != [] ==> PhpArray.Get(methods, methods[0].0).Some?;
      methods != []
    }

    /** `getMethods`: empty for any class but the owning one. */
    function GetMethods(c: string): (r: PhpArray.OrderedMap<string, bool>)
      reads this
      ensures c != className ==> r == []
      ensures c == className ==> r == methods
    {
      if className != c then [] else methods
    }

    /** `hasMethod`: null for a foreign class, otherwise whether the method is registered. */
    function HasMethod(c: string, methodName: string): (r: Option<bool>)
      reads this
      ensures c != className ==> r.None?
      ensures c == className ==> r == Some(PhpArray.Get(methods, methodName).Some?)
    {
      if className != c then None else Some(PhpArray.HasKey(methods, methodName))
    }

    /** `hasMethodParameters`: false for a foreign class, otherwise whether the method has parameters. */
    predicate HasMethodParameters(c: string, methodName: string)
      reads this
      ensures HasMethodParameters(c, methodName) <==> c == className && PhpArray.Get(methodParameters, methodName).Some?
    {
      if className != c then false else PhpArray.HasKey(methodParameters, methodName)
    }

    /** `getMethodParameters`: null for a foreign class or a method without parameters. */
    function GetMethodParameters(c: string, methodName: string): (r: Option<PhpArray.OrderedMap<string, Parameter>>)
      reads this
      ensures c != className ==> r.None?
      ensures c == className ==> r == PhpArray.Get(methodParameters, methodName)
      ensures r.Some? <==> HasMethodParameters(c, methodName)
    {
      if className != c then None
      else if PhpArray.HasKey(methodParameters, methodName) then PhpArray.Get(methodParameters, methodName)
      else None
    }
  }
}
