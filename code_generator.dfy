/**
 * The ahead-of-time factory generator: derives a factory class name and file
 * name from a class name, turns a resolved parameter list into the PHP code
 * of the factory's `create()` method, and records each generated factory in
 * a classmap.
 */
module CodeGenerator {
  import opened Wrappers
  import opened Php
  import opened Resolver
  import PhpArray

  // ---------------------------------------------------------------------
  // Names

  /** The characters `[a-z0-9\\]` matches case-insensitively. */
  predicate IsNameChar(c: char) {
    'a' <= c <= 'z' || 'A' <= c <= 'Z' || '0' <= c <= '9' || c == '\\'
  }

  /** The length of the leading run of characters outside `[a-z0-9\\]`. */
  function RunLength(s: string): (n: nat)
    ensures n <= |s|
    ensures forall i :: 0 <= i < n ==> !IsNameChar(s[i])
    ensures n < |s| ==> IsNameChar(s[n])
  {
    if s != [] && !IsNameChar(s[0]) then 1 + RunLength(s[1..]) else 0
  }

  /** `s` without its leading run of characters outside `[a-z0-9\\]`. */
  function DropRun(s: string): (r: string)
    ensures |r| <= |s|
    ensures r == [] || IsNameChar(r[0])
  {
    s[RunLength(s)..]
  }

  /**
   * `preg_replace('~[^a-z0-9\\\\]+~i', '_', $s)`: every maximal run of
   * characters outside letters, digits and backslash becomes one `_`.
   */
  function Sanitize(s: string): (r: string)
    ensures r == [] <==> s == []
    decreases |s|
  {
    if s == [] then []
    else if IsNameChar(s[0]) then [s[0]] + Sanitize(s[1..])
    else "_" + Sanitize(DropRun(s))
  }

  /** `buildClassName`: the factory class name for class `name`. */
  function BuildClassName(name: string): (r: string)
    ensures |r| >= 7 && r[|r| - 7..] == "Factory"
  {
    Sanitize(name) + "Factory"
  }

  /** `str_replace($from, $to, $s)` for single characters. */
  function ReplaceChar(s: string, from: char, to: char): (r: string)
    ensures |r| == |s|
    ensures forall i :: 0 <= i < |s| ==> r[i] == if s[i] == from then to else s[i]
  {
    seq(|s|, i requires 0 <= i < |s| => if s[i] == from then to else s[i])
  }

  /** `buildFileName`: the factory's file, relative to the output directory. */
  function BuildFileName(name: string): (r: string)
    ensures |r| == |BuildClassName(name)| + 4 && r[|r| - 4..] == ".php"
  {
    ReplaceChar(BuildClassName(name), '\\', '/') + ".php"
  }

  /** A name with no `__`. */
  predicate NoDoubleUnderscore(s: string) {
    forall i :: 0 <= i < |s| - 1 ==> !(s[i] == '_' && s[i + 1] == '_')
  }

  /** The output of Sanitize: name characters and single underscores only. */
  predicate IsSanitized(s: string) {
    (forall i :: 0 <= i < |s| ==> IsNameChar(s[i]) || s[i] == '_') && NoDoubleUnderscore(s)
  }

  /** The name characters of `s`, in order. */
  function NameChars(s: string): (r: string)
    ensures forall i :: 0 <= i < |r| ==> IsNameChar(r[i])
  {
    if s == [] then [] else (if IsNameChar(s[0]) then [s[0]] else []) + NameChars(s[1..])
  }

  lemma {:induction false} NameCharsOfDropRun(s: string)
    ensures NameChars(DropRun(s)) == NameChars(s)
  {
    if s != [] && !IsNameChar(s[0]) {
      NameCharsOfDropRun(s[1..]);
    }
  }

  lemma {:induction false} SanitizeStartsWith(s: string)
    requires s != []
    ensures Sanitize(s) != []
    ensures Sanitize(s)[0] == if IsNameChar(s[0]) then s[0] else '_'
  {
  }

  /**
   * What Sanitize produces: only letters, digits, `\` and `_`, never two
   * `_` in a row, and every letter, digit and `\` of the input kept, in order.
   */
  lemma {:induction false} SanitizeShape(s: string)
    ensures IsSanitized(Sanitize(s))
    ensures NameChars(Sanitize(s)) == NameChars(s)
    decreases |s|
  {
    if s == [] {
    } else if IsNameChar(s[0]) {
      SanitizeShape(s[1..]);
      var r := Sanitize(s);
      assert r[1..] == Sanitize(s[1..]);
      if |r| > 1 {
        SanitizeStartsWith(s[1..]);
      }
      assert r == [s[0]] + r[1..];
    } else {
      var d := DropRun(s);
      SanitizeShape(d);
      NameCharsOfDropRun(s);
      var r := Sanitize(s);
      assert r[1..] == Sanitize(d);
      if d != [] {
        SanitizeStartsWith(d);
        assert r[1] != '_';
      }
      assert r == "_" + r[1..];
      assert s == [s[0]] + s[1..];
      NameCharsOfDropRun(s[1..]);
      assert DropRun(s) == DropRun(s[1..]);
    }
  }

  /** The names Sanitize leaves alone are exactly the sanitized ones. */
  lemma {:induction false} SanitizeFixedPoints(s: string)
    ensures Sanitize(s) == s <==> IsSanitized(s)
    decreases |s|
  {
    if IsSanitized(s) {
      if s != [] {
        assert IsSanitized(s[1..]);
        SanitizeFixedPoints(s[1..]);
        if !IsNameChar(s[0]) {
          assert s[0] == '_';
          assert |s| > 1 ==> IsNameChar(s[1]);
          assert DropRun(s) == s[1..];
        }
      }
    } else {
      SanitizeShape(s);
    }
  }

  /** Sanitizing twice is sanitizing once. */
  lemma SanitizeIdempotent(s: string)
    ensures Sanitize(Sanitize(s)) == Sanitize(s)
  {
    SanitizeShape(s);
    SanitizeFixedPoints(Sanitize(s));
  }

  /**
   * The factory class name is the input with each run of characters outside
   * `[a-z0-9\\]` collapsed to one `_`, then `Factory`: its prefix has only
   * letters, digits, `\` and `_`, no `__`, and keeps every letter, digit and
   * `\` of the input in order (so namespace separators stay in place).
   */
  lemma BuildClassNameShape(name: string)
    ensures var r := BuildClassName(name);
      |r| >= 7 && r[|r| - 7..] == "Factory"
      && IsSanitized(r[..|r| - 7]) && NameChars(r[..|r| - 7]) == NameChars(name)
  {
    SanitizeShape(name);
    var r := BuildClassName(name);
    assert r[..|r| - 7] == Sanitize(name);
    assert r[|r| - 7..] == "Factory";
  }

  /** A stretch of letters, digits and `\` passes through unchanged. */
  lemma {:induction false} SanitizeKeepsNameRun(p: string, s: string)
    requires forall i :: 0 <= i < |p| ==> IsNameChar(p[i])
    ensures Sanitize(p + s) == p + Sanitize(s)
  {
    if p != [] {
      SanitizeKeepsNameRun(p[1..], s);
      assert (p + s)[0] == p[0] && (p + s)[1..] == p[1..] + s;
      assert Sanitize(p + s) == [p[0]] + Sanitize(p[1..] + s);
      assert p == [p[0]] + p[1..];
    } else {
      assert p + s == s;
    }
  }

  lemma {:induction false} RunLengthOfRun(r: string, s: string)
    requires forall i :: 0 <= i < |r| ==> !IsNameChar(r[i])
    requires s == [] || IsNameChar(s[0])
    ensures RunLength(r + s) == |r|
  {
    if r == [] {
      assert r + s == s;
    } else {
      RunLengthOfRun(r[1..], s);
      assert (r + s)[1..] == r[1..] + s;
    }
  }

  /** A maximal run of other characters becomes one `_`. */
  lemma SanitizeCollapsesRun(r: string, s: string)
    requires r != [] && forall i :: 0 <= i < |r| ==> !IsNameChar(r[i])
    requires s == [] || IsNameChar(s[0])
    ensures Sanitize(r + s) == "_" + Sanitize(s)
  {
    var t := r + s;
    assert !IsNameChar(t[0]);
    RunLengthOfRun(r, s);
    assert DropRun(t) == s;
  }

  /**
   * A name of letters, digits and `\` only, such as `App\Models\User`, keeps
   * its namespace separators: its factory is `App\Models\UserFactory`.
   */
  lemma BuildClassNameOfPlainName(name: string)
    requires forall i :: 0 <= i < |name| ==> IsNameChar(name[i])
    ensures BuildClassName(name) == name + "Factory"
  {
    SanitizeKeepsNameRun(name, "");
    assert name + "" == name;
  }

  /** Between two plain parts, a run of other characters, however long, becomes one `_`. */
  lemma BuildClassNameJoinsRun(a: string, run: string, b: string)
    requires forall i :: 0 <= i < |a| ==> IsNameChar(a[i])
    requires forall i :: 0 <= i < |b| ==> IsNameChar(b[i])
    requires run != [] && forall i :: 0 <= i < |run| ==> !IsNameChar(run[i])
    ensures BuildClassName(a + run + b) == a + "_" + b + "Factory"
  {
    assert Sanitize(run + b) == "_" + b by {
      SanitizeKeepsNameRun(b, "");
      assert b + "" == b;
      SanitizeCollapsesRun(run, b);
    }
    assert Sanitize(a + run + b) == a + ("_" + b) by {
      SanitizeKeepsNameRun(a, run + b);
      assert a + run + b == a + (run + b);
    }
    assert a + ("_" + b) + "Factory" == a + "_" + b + "Factory";
  }

  /**
   * Different class names can share a factory: `A__B` and `A_B` (both valid
   * PHP class names) give the same factory class name and file.
   */
  lemma BuildClassNameCollision(a: string, b: string)
    requires forall i :: 0 <= i < |a| ==> IsNameChar(a[i])
    requires forall i :: 0 <= i < |b| ==> IsNameChar(b[i])
    ensures BuildClassName(a + "__" + b) == BuildClassName(a + "_" + b)
    ensures BuildFileName(a + "__" + b) == BuildFileName(a + "_" + b)
  {
    BuildClassNameJoinsRun(a, "__", b);
    BuildClassNameJoinsRun(a, "_", b);
  }

  /**
   * The factory file name is the class name with every `\` turned into `/`,
   * then `.php`; it holds no `\`, and turning `/` back into `\` recovers the
   * class name.
   */
  lemma BuildFileNameShape(name: string)
    ensures var c := BuildClassName(name); var f := BuildFileName(name);
      |f| == |c| + 4 && f[|c|..] == ".php"
      && (forall i :: 0 <= i < |f| ==> f[i] != '\\')
      && ReplaceChar(f[..|c|], '/', '\\') == c
  {
    SanitizeShape(name);
    var c := BuildClassName(name);
    var f := BuildFileName(name);
    assert c == Sanitize(name) + "Factory";
    forall i | 0 <= i < |c| ensures c[i] != '/' {
      if i < |Sanitize(name)| {
        assert IsNameChar(Sanitize(name)[i]) || Sanitize(name)[i] == '_';
      } else {
        assert c[i] == "Factory"[i - |Sanitize(name)|];
      }
    }
    assert f[..|c|] == ReplaceChar(c, '\\', '/');
  }

  /** The `?:` default: a namespace that is null, "" or "0" becomes `LaminasDiGenerated`. */
  function DefaultNamespace(namespace: Option<string>): (r: string)
    ensures namespace.None? ==> r == "LaminasDiGenerated"
    ensures namespace.Some? && namespace.value != "" && namespace.value != "0" ==> r == namespace.value
    ensures namespace.Some? && (namespace.value == "" || namespace.value == "0") ==> r == "LaminasDiGenerated"
  {
    match namespace
    case Some(ns) => if ToBool(Str(ns)) then ns else "LaminasDiGenerated"
    case None => "LaminasDiGenerated"
  }

  /**
   * `getClassName`: the class an alias stands for, or the type itself. Only
   * one alias step is taken.
   */
  function GetClassName(aliases: map<string, string>, t: string): (r: string)
    ensures t in aliases ==> r == aliases[t]
    ensures t !in aliases ==> r == t
  {
    if t in aliases then aliases[t] else t
  }

  /** An alias of an alias resolves to the intermediate name, not to the end of the chain. */
  lemma GetClassNameOneStep()
    ensures GetClassName(map["A" := "B", "B" := "C"], "A") == "B"
  {
  }

  // ---------------------------------------------------------------------
  // The create() method body

  /** Every injection of the list can be written as code. */
  predicate AllExportable(params: seq<ResolvedParameter>) {
    forall i :: 0 <= i < |params| ==> IsExportable(params[i].injection)
  }

  /** `implode($sep, $parts)`. */
  function Implode(sep: string, parts: seq<string>): string {
    if parts == [] then ""
    else if |parts| == 1 then parts[0]
    else parts[0] + sep + Implode(sep, parts[1..])
  }

  /** The local variable holding parameter `p`. */
  function Variable(p: ResolvedParameter): string {
    "$p_" + p.name
  }

  /** The expression producing the parameter's value: its export, fetched from the container for a type. */
  function ValueCode(p: ResolvedParameter): (code: string)
    requires IsExportable(p.injection)
    ensures p.injection.ValueInjection? ==> code == Export(p.injection).value
    ensures p.injection.TypeInjection? ==> code == "$container->get(" + Export(p.injection).value + ")"
  {
    var exported := Export(p.injection).value;
    if p.injection.TypeInjection? then "$container->get(" + exported + ")" else exported
  }

  /** The assignment used when no options are passed. */
  function WithoutOptionsLine(p: ResolvedParameter): string
    requires IsExportable(p.injection)
  {
    Variable(p) + " = " + ValueCode(p) + ";"
  }

  /** The assignment used when options are passed: an option named like the parameter wins. */
  function WithOptionsLine(p: ResolvedParameter): string
    requires IsExportable(p.injection)
  {
    Variable(p) + " = array_key_exists(" + ExportString(p.name) + ", $options)? $options["
      + ExportString(p.name) + "] : " + ValueCode(p) + ";"
  }

  function Variables(params: seq<ResolvedParameter>): (r: seq<string>)
    ensures |r| == |params| && forall i :: 0 <= i < |params| ==> r[i] == Variable(params[i])
  {
    seq(|params|, i requires 0 <= i < |params| => Variable(params[i]))
  }

  function WithoutOptionsLines(params: seq<ResolvedParameter>): (r: seq<string>)
    requires AllExportable(params)
    ensures |r| == |params| && forall i :: 0 <= i < |params| ==> r[i] == WithoutOptionsLine(params[i])
  {
    seq(|params|, i requires 0 <= i < |params| => WithoutOptionsLine(params[i]))
  }

  function WithOptionsLines(params: seq<ResolvedParameter>): (r: seq<string>)
    requires AllExportable(params)
    ensures |r| == |params| && forall i :: 0 <= i < |params| ==> r[i] == WithOptionsLine(params[i])
  {
    seq(|params|, i requires 0 <= i < |params| => WithOptionsLine(params[i]))
  }

  const Tab: string := "    "

  /**
   * The initialiser: empty when there are no parameters, otherwise a branch
   * on `empty($options)` between the two lists of assignments.
   */
  function InitializerCode(withoutOptions: seq<string>, withOptions: seq<string>): (r: string)
    ensures r == "" <==> |withOptions| == 0
  {
    if |withOptions| == 0 then ""
    else
      "if (empty($options)) {\n"
      + Tab + Implode("\n" + Tab, withoutOptions) + "\n"
      + "} else {\n"
      + Tab + Implode("\n" + Tab, withOptions)
      + "\n}\n\n"
  }

  /** One indented line per statement. */
  function Block(lines: seq<string>): string {
    if lines == [] then "" else Tab + lines[0] + "\n" + Block(lines[1..])
  }

  lemma {:induction false} ImplodeIsBlock(lines: seq<string>)
    requires lines != []
    ensures Tab + Implode("\n" + Tab, lines) + "\n" == Block(lines)
  {
    if |lines| > 1 {
      ImplodeIsBlock(lines[1..]);
      calc {
        Tab + Implode("\n" + Tab, lines) + "\n";
        Tab + (lines[0] + ("\n" + Tab) + Implode("\n" + Tab, lines[1..])) + "\n";
        (Tab + lines[0] + "\n") + (Tab + Implode("\n" + Tab, lines[1..]) + "\n");
        (Tab + lines[0] + "\n") + Block(lines[1..]);
      }
    }
  }

  /**
   * Proof helper: regrouping the initialiser's concatenation into its two
   * branch blocks. Kept apart because the same step inside a proof that also
   * unfolds `Implode` is far more expensive for the solver.
   */
  lemma InitializerRegroup(w: string, o: string)
    ensures "if (empty($options)) {\n" + Tab + w + "\n" + "} else {\n" + Tab + o + "\n}\n\n"
      == "if (empty($options)) {\n" + (Tab + w + "\n") + "} else {\n" + (Tab + o + "\n") + "}\n\n"
  {
  }

  /**
   * The initialiser is empty exactly for an empty parameter list; otherwise
   * both branches hold one indented assignment per parameter, in order.
   */
  lemma InitializerCodeShape(params: seq<ResolvedParameter>)
    requires AllExportable(params)
    ensures var code := InitializerCode(WithoutOptionsLines(params), WithOptionsLines(params));
      (code == "" <==> params == [])
      && (params != [] ==>
            code == "if (empty($options)) {\n" + Block(WithoutOptionsLines(params))
                    + "} else {\n" + Block(WithOptionsLines(params)) + "}\n\n")
  {
    var w := WithoutOptionsLines(params);
    var o := WithOptionsLines(params);
    var code := InitializerCode(w, o);
    if params != [] {
      InitializerRegroup(Implode("\n" + Tab, w), Implode("\n" + Tab, o));
      ImplodeIsBlock(w);
      ImplodeIsBlock(o);
    }
  }

  /**
   * `buildParametersCode`, on the resolver's result: nothing when some
   * injection is not exportable; otherwise the parameter variables, in order,
   * and the initialiser code.
   */
  method BuildParametersCode(params: seq<ResolvedParameter>) returns (r: Option<(seq<string>, string)>)
    ensures r.None? <==> !AllExportable(params)
    ensures r.Some? ==>
              && AllExportable(params)
              && r.value.0 == Variables(params)
              && r.value.1 == InitializerCode(WithoutOptionsLines(params), WithOptionsLines(params))
  {
    var names: seq<string> := [];
    var withOptions: seq<string> := [];
    var withoutOptions: seq<string> := [];
    var i := 0;
    while i < |params|
      invariant 0 <= i <= |params|
      invariant AllExportable(params[..i])
      invariant names == Variables(params[..i])
      invariant withoutOptions == WithoutOptionsLines(params[..i])
      invariant withOptions == WithOptionsLines(params[..i])
    {
      var injection := params[i].injection;
      if !IsExportable(injection) {
        return None;
      }
      var name := params[i].name;
      var variable := "$p_" + name;
      var code := Export(injection).value;
      if injection.TypeInjection? {
        code := "$container->get(" + code + ")";
      }
      names := names + [variable];
      withoutOptions := withoutOptions + [variable + " = " + code + ";"];
      withOptions := withOptions + [variable + " = array_key_exists(" + ExportString(name)
        + ", $options)? $options[" + ExportString(name) + "] : " + code + ";"];
      assert params[..i + 1] == params[..i] + [params[i]];
      i := i + 1;
    }
    assert params[..i] == params;
    var code := "";
    if |withOptions| > 0 {
      code := "if (empty($options)) {\n"
        + Tab + Implode("\n" + Tab, withoutOptions) + "\n"
        + "} else {\n"
        + Tab + Implode("\n" + Tab, withOptions)
        + "\n}\n\n";
    }
    return Some((names, code));
  }

  /** The body of the factory's `create()` method: the initialiser, then the constructor call. */
  function CreateMethodBody(className: string, params: seq<ResolvedParameter>): (r: string)
    requires AllExportable(params)
    ensures ToBool(Str(r))
  {
    InitializerCode(WithoutOptionsLines(params), WithOptionsLines(params))
      + "return new \\" + className + "(" + Implode(", ", Variables(params)) + ");\n"
  }

  /** A class without parameters is built by a bare constructor call. */
  lemma CreateMethodBodyNoParameters(className: string)
    ensures CreateMethodBody(className, []) == "return new \\" + className + "();\n"
  {
  }

  /**
   * With parameters, the body branches on the options and then passes the
   * variables to the constructor, comma-separated, in parameter order.
   */
  lemma CreateMethodBodyWithParameters(className: string, params: seq<ResolvedParameter>)
    requires AllExportable(params) && params != []
    ensures CreateMethodBody(className, params)
      == "if (empty($options)) {\n" + Block(WithoutOptionsLines(params))
         + "} else {\n" + Block(WithOptionsLines(params)) + "}\n\n"
         + "return new \\" + className + "(" + Implode(", ", Variables(params)) + ");\n"
  {
    InitializerCodeShape(params);
  }

  // ---------------------------------------------------------------------
  // The generator

  /** `! $this->outputDirectory` is false: a directory is set and is truthy. */
  predicate HasOutputDirectory(dir: Option<string>) {
    dir.Some? && ToBool(Str(dir.value))
  }

  class FactoryGenerator {
    /** The namespace generated factories go into. */
    const namespace: string
    /** The configuration's alias table (`isAlias`, `getClassForAlias`). */
    const aliases: map<string, string>
    /** The dependency resolver's `resolveParameters`, whose algorithm is not part of this model. */
    const resolve: string -> seq<ResolvedParameter>
    /** The output directory, set through the generator trait. */
    var outputDirectory: Option<string>
    /** Factory class name to file name, in generation order. */
    var classmap: PhpArray.OrderedMap<string, string>

    constructor(aliases: map<string, string>, resolve: string -> seq<ResolvedParameter>, namespace: Option<string>)
      ensures this.namespace == DefaultNamespace(namespace)
      ensures this.aliases == aliases && this.resolve == resolve
      ensures outputDirectory.None? && classmap == []
    {
      this.aliases := aliases;
      this.resolve := resolve;
      this.namespace := DefaultNamespace(namespace);
      outputDirectory := None;
      classmap := [];
    }

    /** `setOutputDirectory` of the generator trait. */
    method SetOutputDirectory(dir: string)
      modifies this
      ensures outputDirectory == Some(dir) && classmap == old(classmap)
    {
      outputDirectory := Some(dir);
    }

    /** `buildCreateMethodBody`: the create() body for `t`, or nothing when a parameter is not exportable. */
    method BuildCreateMethodBody(t: string) returns (r: Option<string>)
      ensures r.None? <==> !AllExportable(resolve(t))
      ensures r.Some? ==> AllExportable(resolve(t)) && r.value == CreateMethodBody(GetClassName(aliases, t), resolve(t))
    {
      var className := GetClassName(aliases, t);
      var result := BuildParametersCode(resolve(t));
      if result.None? {
        return None;
      }
      var (paramNames, paramsCode) := result.value;
      return Some(paramsCode + "return new \\" + className + "(" + Implode(", ", paramNames) + ");\n");
    }

    /**
     * `generate`: on success the factory's full class name, recorded in the
     * classmap under its file name; otherwise nothing, and the classmap is
     * left as it was.
     */
    method Generate(className: string) returns (r: Option<string>)
      modifies this
      ensures outputDirectory == old(outputDirectory)
      ensures r.None? <==> !AllExportable(resolve(className)) || !HasOutputDirectory(outputDirectory)
      ensures r.None? ==> classmap == old(classmap)
      ensures r.Some? ==>
                && r.value == namespace + "\\" + BuildClassName(className)
                && classmap == PhpArray.Put(old(classmap), r.value, BuildFileName(className))
                && PhpArray.Get(classmap, r.value) == Some(BuildFileName(className))
      ensures forall k :: r.None? || k != r.value ==> PhpArray.Get(classmap, k) == PhpArray.Get(old(classmap), k)
    {
      var createBody := BuildCreateMethodBody(className);
      if createBody.None? || !HasOutputDirectory(outputDirectory) {
        return None;
      }
      var factoryClassName := namespace + "\\" + BuildClassName(className);
      var filename := BuildFileName(className);
      forall k {
        PhpArray.PutGet(classmap, factoryClassName, filename, k);
      }
      classmap := PhpArray.Put(classmap, factoryClassName, filename);
      return Some(factoryClassName);
    }

    /** `getClassmap`. */
    function GetClassmap(): (m: PhpArray.OrderedMap<string, string>)
      reads this
      ensures m == classmap
    {
      classmap
    }
  }

  /**
   * Generating the same class twice leaves the classmap as one generation
   * left it, and both calls return the same factory name.
   */
  method GenerateTwice(g: FactoryGenerator, className: string) returns (first: Option<string>, second: Option<string>)
    modifies g
    ensures first == second
    ensures first.Some? ==> g.classmap == PhpArray.Put(old(g.classmap), first.value, BuildFileName(className))
    ensures first.None? ==> g.classmap == old(g.classmap)
  {
    first := g.Generate(className);
    second := g.Generate(className);
    if first.Some? {
      PhpArray.PutIdempotent(old(g.classmap), first.value, BuildFileName(className));
    }
  }
}
