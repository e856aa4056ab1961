# laminas-di core, modelled in Dafny

This project models four parts of laminas-di, a PHP dependency-injection
component:

- **The ahead-of-time factory generator** (`FactoryGenerator`).
  - It turns a resolved list of constructor injections into the body of a factory's `create` method.
  - It derives the factory's class name and file name from the class being built.
  - It records each generated factory in a classmap.
- **The value-injection contract** that the `ValueInjection` tests pin down:
  - which values can be written out as PHP source, and what `export()` gives;
  - `toValue()`, `__set_state()` and the deprecated `getValue()`.
- **The single-class definition** (`ClassDefinition`). It is a mutable record of one class's supertypes, its instantiator, its injection methods with their required flags, and each method's parameters.
- **The injection-method builder** (`InjectionMethod`). It holds a method name and an append-only list of parameter tuples.

Files and modules:

- `wrappers.dfy` (`Wrappers`): `Option` and `Result`.
- `php_value.dfy` (`Php`): PHP values and the PHP semantics the core relies on.
  - A closed value type.
  - The `(bool)` cast, and loose comparison with null.
  - Decimal integer text.
  - `var_export` of a string, with its read-back.
- `php_array.dfy` (`PhpArray`): PHP arrays used as ordered dictionaries.
  - `$a[$k] = $v` overwrites in place or appends at the end.
  - `array_key_exists` and reading a key.
- `resolver.dfy` (`Resolver`): injections, exportability, `export`, `toValue`, `__set_state` and `getValue`.
- `code_generator.dfy` (`CodeGenerator`):
  - the name builders (`buildClassName`, `buildFileName`);
  - `getClassName`, `buildParametersCode` (a loop, modelled as a method) and `buildCreateMethodBody`;
  - the `FactoryGenerator` class, whose `generate` updates the classmap field.
- `definition.dfy` (`Definition`): the `ClassDefinition` class. Its table updates are methods, proved against module-level functions (`WithMethod`, `StoreParameter`) and an invariant (`Consistent`).
- `builder.dfy` (`Builder`): the `InjectionMethod` class.

Modelling decisions:

- **Class names in `buildClassName`.** The regular expression is `~[^a-z0-9\\]+~i`. It keeps backslashes, so `App\Models\User` becomes `App\Models\UserFactory`, not `App_Models_UserFactory`. The model follows the code: `CodeGenerator.BuildClassNameOfPlainName`. Backslashes only become `/` in the file name.
- **PHP truthiness is modelled exactly.**
  - Because of `?:`, a namespace of `''` or `'0'` falls back to `LaminasDiGenerated`.
  - `! $this->outputDirectory` likewise treats an output directory of `''` or `'0'` as not set.
  - `$createBody` is never falsy when parameter building succeeds, because it always ends in `";\n"`. So `generate` fails only on unexportable parameters or a missing output directory.
- **Arrays.** PHP arrays are lists of (key, value) entries with PHP's write semantics. The model proves that the key order and key uniqueness PHP guarantees are kept.
- **The dependency resolver.** `resolveParameters` is a parameter of the generator. It is a function from a type name to the resolved list. The alias configuration is a `map`.
- **Injection parameter names.** The parameter name an injection carries (`getParameterName()`) is modelled by pairing each injection with its name (`ResolvedParameter`).
- **Loose null comparison in the builder.** The builder's `required` flag is the loose comparison `$isRequired == null`. It is true for null, false, 0, 0.0, `''` and the empty array. It is false for `true`, for `'0'` and for everything else.
- **`hasMethod`.** The fallback `return null` in `hasMethod` cannot be reached, because `$this->methods` is always an array. It is not modelled.

## Model

| member | source | states |
|---|---|---|
| Php.ToBool | src/Definition/ClassDefinition.php:84 | `(bool)` of a string is false exactly for `''` and `'0'`; objects and resources are true |
| Php.LooselyEqualsNull | src/Definition/Builder/InjectionMethod.php:60 | `$v == null`: a loosely-null value is always falsy, and a string is loosely null exactly when it is empty; the two lemmas below list its values |
| Php.LooselyEqualsNullValues | src/Definition/Builder/InjectionMethod.php:60 | `$v == null` holds exactly for null, false, 0, ±0.0, `''` and the empty array |
| Php.LooselyEqualsNullIsFalsy | src/Definition/Builder/InjectionMethod.php:60 | `$v == null` is falsiness except for `'0'`, which is falsy yet not loosely null |
| Php.IntToDecimal | test/Resolver/ValueInjectionTest.php:96 | an integer's text is non-empty and starts with `-` exactly when it is negative |
| Php.ExportString | src/CodeGenerator/FactoryGenerator.php:130 | `var_export` of a string is a single-quoted literal |
| Php.ReadQuotedBodyEscape | src/CodeGenerator/FactoryGenerator.php:130 | reading an escaped string body up to the closing quote gives back the string and the rest |
| Php.ExportStringRoundTrip | src/CodeGenerator/FactoryGenerator.php:130 | the literal `var_export` writes for a parameter name reads back as exactly that name, whatever text follows |
| PhpArray.Put | src/Definition/ClassDefinition.php:84 | `$a[$k] = $v`: the array grows by one entry exactly when the key is new; PutGet, PutKeys, PutEntries, PutKeepsUniqueKeys, PutIdempotent and PutOverwrites state what the write does |
| PhpArray.Get | src/Definition/ClassDefinition.php:213-214 | reading a key yields a value exactly when `array_key_exists` holds |
| PhpArray.HasKeyAt | src/Definition/ClassDefinition.php:97 | `array_key_exists` holds exactly when some entry carries the key |
| PhpArray.GetFindsEntry | src/Definition/ClassDefinition.php:213-214 | with distinct keys, reading a key gives the value of its one entry |
| PhpArray.GetIsEntry | src/Definition/ClassDefinition.php:214 | a value read by key is one of the array's entries under that key |
| PhpArray.PutGet | src/Definition/ClassDefinition.php:84 | after `$a[$k] = $v`, `$a[$k]` is `$v` and every other key reads as before |
| PhpArray.PutKeys | src/CodeGenerator/FactoryGenerator.php:231 | an existing key keeps its position; a new key is appended last |
| PhpArray.PutEntries | src/Definition/ClassDefinition.php:110 | every entry after the write is the written one or an earlier one |
| PhpArray.PutKeepsUniqueKeys | src/Definition/ClassDefinition.php:110 | writing a key keeps all keys distinct |
| PhpArray.PutIdempotent | src/CodeGenerator/FactoryGenerator.php:231 | writing the same entry twice equals writing it once |
| PhpArray.PutOverwrites | src/Definition/ClassDefinition.php:110 | a second write of a key replaces the first in place |
| Resolver.IsExportableValue | test/Resolver/ValueInjectionTest.php:92-137 | the recursive exportability check over values (no contract of its own); ExportableIffNoUnexportableLeaf ties it to a direct description |
| Resolver.IsExportable | test/Resolver/ValueInjectionTest.php:153-166 | `isExportable()`: always for a type injection; for a value injection exactly when no resource and no object without a public `__set_state` occurs in the value |
| Resolver.ExportableIffNoUnexportableLeaf | test/Resolver/ValueInjectionTest.php:124-137 | a value is exportable exactly when no resource and no object without a public `__set_state` occurs in it at any depth |
| Resolver.ExportValueText | test/Resolver/ValueInjectionTest.php:171-178 | the export text of every exportable value is non-empty |
| Resolver.Export | test/Resolver/ValueInjectionTest.php:142-178 | `export()` succeeds exactly for exportable injections, with non-empty text; otherwise it fails with LogicException |
| Resolver.ToValue | test/Resolver/ValueInjectionTest.php:81-90 | `toValue($c)`: a value injection yields its value; a type injection yields the container's entry and fails with not-found exactly when the container has none |
| Resolver.ToValueIgnoresContainer | test/Resolver/ValueInjectionTest.php:81-90 | a value injection's `toValue` is its value whatever the container holds |
| Resolver.SetState | test/Resolver/ValueInjectionTest.php:70-76 | `__set_state` gives a value injection wrapping the `'value'` entry, null when absent |
| Resolver.SetStateRoundTrip | test/Resolver/ValueInjectionTest.php:70-76 | `__set_state(['value' => $v])->toValue($c)` is `$v` |
| Resolver.GetValue | test/Resolver/ValueInjectionTest.php:180-187 | `getValue()` returns what `toValue` returns under any container, with exactly one deprecation notice |
| Resolver.ExportableExamples | test/Resolver/ValueInjectionTest.php:92-122 | every value of the exportable data set, nested arrays included, is exportable |
| Resolver.UnexportableExamples | test/Resolver/ValueInjectionTest.php:124-157 | the stream, objects without a public `__set_state` and arrays holding them are unexportable, and `export()` fails with LogicException |
| CodeGenerator.Sanitize | src/CodeGenerator/FactoryGenerator.php:68 | the `preg_replace`: empty exactly for an empty input; the Sanitize lemmas below state what it replaces and what it keeps |
| CodeGenerator.RunLength | src/CodeGenerator/FactoryGenerator.php:68 | the length of the leading run the pattern matches: it stops at the first letter, digit or backslash |
| CodeGenerator.DropRun | src/CodeGenerator/FactoryGenerator.php:68 | dropping a leading run leaves a string that is empty or starts with a kept character |
| CodeGenerator.NameCharsOfDropRun | src/CodeGenerator/FactoryGenerator.php:68 | dropping a run loses no letter, digit or backslash |
| CodeGenerator.SanitizeStartsWith | src/CodeGenerator/FactoryGenerator.php:68 | the replacement starts with the input's first character if kept, else with `_` |
| CodeGenerator.SanitizeShape | src/CodeGenerator/FactoryGenerator.php:68 | the replacement holds only letters, digits, `\` and `_`, never `__`, and keeps the kept characters in order |
| CodeGenerator.SanitizeFixedPoints | src/CodeGenerator/FactoryGenerator.php:68 | the replacement leaves a string unchanged exactly when it already has that shape |
| CodeGenerator.SanitizeIdempotent | src/CodeGenerator/FactoryGenerator.php:68 | applying the replacement twice equals applying it once |
| CodeGenerator.SanitizeKeepsNameRun | src/CodeGenerator/FactoryGenerator.php:68 | a prefix of kept characters passes through unchanged |
| CodeGenerator.RunLengthOfRun | src/CodeGenerator/FactoryGenerator.php:68 | a run of replaced characters before a kept one is matched whole |
| CodeGenerator.SanitizeCollapsesRun | src/CodeGenerator/FactoryGenerator.php:68 | a whole run of replaced characters becomes one `_` |
| CodeGenerator.BuildClassName | src/CodeGenerator/FactoryGenerator.php:66-69 | `buildClassName`: ends in `Factory`; BuildClassNameShape states the prefix's shape |
| CodeGenerator.BuildClassNameShape | src/CodeGenerator/FactoryGenerator.php:66-69 | the class name ends in `Factory`; the prefix holds only letters, digits, `\` and `_`, has no `__` and keeps every letter, digit and backslash of the input in order |
| CodeGenerator.BuildClassNameOfPlainName | src/CodeGenerator/FactoryGenerator.php:66-69 | a name of letters, digits and backslashes only gets just `Factory` appended |
| CodeGenerator.BuildClassNameJoinsRun | src/CodeGenerator/FactoryGenerator.php:66-69 | any run of other characters between two plain parts becomes a single `_` |
| CodeGenerator.BuildClassNameCollision | src/CodeGenerator/FactoryGenerator.php:66-79 | `A__B` and `A_B` get the same factory class name and file name |
| CodeGenerator.ReplaceChar | src/CodeGenerator/FactoryGenerator.php:78 | `str_replace` of one character: same length, exactly that character replaced |
| CodeGenerator.BuildFileName | src/CodeGenerator/FactoryGenerator.php:75-79 | `buildFileName`: the class name's length plus four, ending in `.php`; BuildFileNameShape states the rest |
| CodeGenerator.BuildFileNameShape | src/CodeGenerator/FactoryGenerator.php:75-79 | the file name is the class name with `\` turned into `/`, then `.php`; it has no `\`; turning `/` back gives the class name |
| CodeGenerator.DefaultNamespace | src/CodeGenerator/FactoryGenerator.php:59 | the namespace is the one given unless it is null, `''` or `'0'`, then `LaminasDiGenerated` |
| CodeGenerator.GetClassName | src/CodeGenerator/FactoryGenerator.php:85-92 | an alias maps to its class; any other type to itself |
| CodeGenerator.ValueCode | src/CodeGenerator/FactoryGenerator.php:115-119 | a value injection's code is its export; a type injection's is `$container->get(<export>)` |
| CodeGenerator.Variables | src/CodeGenerator/FactoryGenerator.php:113-124 | one variable `$p_<name>` per injection, in order |
| CodeGenerator.WithoutOptionsLines | src/CodeGenerator/FactoryGenerator.php:125 | one plain assignment per injection, in order |
| CodeGenerator.WithOptionsLines | src/CodeGenerator/FactoryGenerator.php:126-131 | one options-or-default assignment per injection, in order |
| CodeGenerator.Implode | src/CodeGenerator/FactoryGenerator.php:143-145 | `implode` (no contract of its own); ImplodeIsBlock states what the tab-joined lines give |
| CodeGenerator.ImplodeIsBlock | src/CodeGenerator/FactoryGenerator.php:143-145 | tab-joining lines and adding a newline gives one indented line per entry |
| CodeGenerator.InitializerCode | src/CodeGenerator/FactoryGenerator.php:134-147 | the initializer text is empty exactly when there are no injections; InitializerCodeShape states both branches |
| CodeGenerator.InitializerCodeShape | src/CodeGenerator/FactoryGenerator.php:134-147 | the initializer is empty exactly when there are no injections; otherwise it is the `if (empty($options))` branch and the `else` branch, each with one indented assignment per injection |
| CodeGenerator.BuildParametersCode | src/CodeGenerator/FactoryGenerator.php:99-150 | fails exactly when some injection is unexportable; otherwise returns the variables in order and the initializer code |
| CodeGenerator.CreateMethodBody | src/CodeGenerator/FactoryGenerator.php:156-174 | the create-method body is always truthy, so the `! $createBody` test at line 200 fails only when parameter building failed |
| CodeGenerator.CreateMethodBodyNoParameters | src/CodeGenerator/FactoryGenerator.php:156-174 | with no injections the body is just `return new \<class>();` |
| CodeGenerator.CreateMethodBodyWithParameters | src/CodeGenerator/FactoryGenerator.php:156-174 | otherwise the body is both initializer branches, then `return new \<class>($p_a, $p_b, …);` |
| CodeGenerator.FactoryGenerator.constructor | src/CodeGenerator/FactoryGenerator.php:52-60 | keeps the aliases and the resolver, defaults the namespace, starts with no output directory and an empty classmap |
| CodeGenerator.FactoryGenerator.SetOutputDirectory | src/CodeGenerator/FactoryGenerator.php:200 | sets the output directory `generate` tests; the classmap is untouched |
| CodeGenerator.FactoryGenerator.BuildCreateMethodBody | src/CodeGenerator/FactoryGenerator.php:156-174 | fails exactly when parameter building fails; otherwise gives the body for the alias-resolved class |
| CodeGenerator.FactoryGenerator.Generate | src/CodeGenerator/FactoryGenerator.php:196-233 | fails, with the classmap unchanged, exactly when an injection is unexportable or no output directory is set; otherwise returns `namespace\<class name>`, maps it to the file name and leaves every other classmap entry as it was |
| CodeGenerator.FactoryGenerator.GetClassmap | src/CodeGenerator/FactoryGenerator.php:238-241 | the classmap recorded by earlier `generate` calls |
| CodeGenerator.GenerateTwice | src/CodeGenerator/FactoryGenerator.php:196-233 | generating the same class twice returns the same name both times and leaves the classmap as one generation did |
| Definition.MethodRequirement | src/Definition/ClassDefinition.php:81-84 | a null flag means required exactly for `__construct`; a given flag is its boolean value |
| Definition.ParameterFromInfo | src/Definition/ClassDefinition.php:105-107 | type and default are the info entries, null when missing; required is the entry's truthiness, false when missing; an empty info gives `(name, null, false, null)` |
| Definition.FqNameInjective | src/Definition/ClassDefinition.php:109 | within one class and method, distinct parameter names give distinct keys |
| Definition.AddMethodKeepsConsistent | src/Definition/ClassDefinition.php:84 | setting a method's flag keeps the definition's invariant |
| Definition.WithMethodFlags | src/Definition/ClassDefinition.php:97-99 | registering a method keeps an existing flag, gives a new method the constructor default, and leaves other methods alone |
| Definition.StoreParameterKeepsConsistent | src/Definition/ClassDefinition.php:95-118 | adding a parameter keeps keys distinct, every parameter list's method registered, and every parameter under its `class::method:name` key |
| Definition.StoreParameterEffect | src/Definition/ClassDefinition.php:101-115 | after adding a parameter, its method has a list in which the `class::method:name` key reads the new tuple, and other methods' lists are unchanged |
| Definition.StoreParameterKeepsOthers | src/Definition/ClassDefinition.php:109-115 | the method's parameters under other names are unchanged |
| Definition.ClassDefinition.constructor | src/Definition/ClassDefinition.php:47-50 | a new definition has the class, no supertypes, no instantiator, no methods and no parameters |
| Definition.ClassDefinition.SetInstantiator | src/Definition/ClassDefinition.php:56-61 | replaces the instantiator; `getInstantiator` for the owning class then returns it; nothing else changes |
| Definition.ClassDefinition.SetSupertypes | src/Definition/ClassDefinition.php:67-72 | replaces the supertypes; `getClassSupertypes` for the owning class then returns them; nothing else changes |
| Definition.ClassDefinition.AddMethod | src/Definition/ClassDefinition.php:79-87 | stores the method's required flag in place or at the end; other methods' flags and the parameters are unchanged |
| Definition.ClassDefinition.AddMethodParameter | src/Definition/ClassDefinition.php:95-118 | registers the method only if new, stores the tuple under `class::method:name`, keeps the invariant, and afterwards `hasMethod` and `hasMethodParameters` hold |
| Definition.ClassDefinition.GetClasses | src/Definition/ClassDefinition.php:123-126 | the singleton of the owning class |
| Definition.ClassDefinition.HasClass | src/Definition/ClassDefinition.php:131-134 | true exactly for the class `getClasses` lists |
| Definition.ClassDefinition.GetClassSupertypes | src/Definition/ClassDefinition.php:139-145 | empty for a foreign class, the supertypes for the owning one |
| Definition.ClassDefinition.GetInstantiator | src/Definition/ClassDefinition.php:150-156 | null for a foreign class, the instantiator for the owning one |
| Definition.ClassDefinition.HasMethods | src/Definition/ClassDefinition.php:161-164 | whatever the class argument, true exactly when some method is registered |
| Definition.ClassDefinition.GetMethods | src/Definition/ClassDefinition.php:169-175 | empty for a foreign class, the method flags for the owning one |
| Definition.ClassDefinition.HasMethod | src/Definition/ClassDefinition.php:180-191 | null for a foreign class; otherwise whether the method has a flag |
| Definition.ClassDefinition.HasMethodParameters | src/Definition/ClassDefinition.php:196-202 | false for a foreign class; otherwise whether the method has a parameter list |
| Definition.ClassDefinition.GetMethodParameters | src/Definition/ClassDefinition.php:207-218 | null for a foreign class or a method without parameters; otherwise its parameter list |
| Builder.NewParameter | src/Definition/Builder/InjectionMethod.php:55-62 | name, class and default are kept as given; required is true exactly for the loosely-null values, so `true` gives false |
| Builder.InjectionMethod.constructor | src/Definition/Builder/InjectionMethod.php:22-27 | a new builder has no name and no parameters |
| Builder.InjectionMethod.SetName | src/Definition/Builder/InjectionMethod.php:33-46 | `getName` then returns the name given; the parameters are unchanged |
| Builder.InjectionMethod.GetName | src/Definition/Builder/InjectionMethod.php:43-46 | `getName` (no contract of its own): the name field, which the constructor and SetName's ensures determine |
| Builder.InjectionMethod.AddParameter | src/Definition/Builder/InjectionMethod.php:55-73 | `getParameters` gains exactly one tuple at the end, with no deduplication; earlier tuples and the name are unchanged |
| Builder.InjectionMethod.GetParameters | src/Definition/Builder/InjectionMethod.php:70-73 | `getParameters` (no contract of its own): the tuple list, which the constructor and AddParameter's ensures determine |

## Left out

- The dependency resolver (`resolveParameters`) is not part of this model. Its result is the generator's `resolve` parameter. The resolver's own exceptions are not modelled.
- Code emission through `ClassGenerator`, `MethodGenerator`, `ParameterGenerator`, `DocBlockGenerator` and `FileGenerator::write` is left out. It is foreign library code and file I/O. `generate` is modelled through its return value and its classmap update.
- `ensureDirectory` and the output-directory setter come from `GeneratorTrait`, which is not part of this model. The output directory is a field with a plain setter.
- `buildInvokeMethod` is left out. It only adds a constant code string through the code-generation library.
- Resolver.ExportValueText: the text is not PHP's exact `var_export` output. Nested-array layout, floats (a placeholder text over the bit pattern), objects' captured state, NUL bytes in strings and `PHP_INT_MIN` are approximate. The contract is only the one the tests make: non-empty text.
- Resolver.SetState: PHP's warning for reading a missing `'value'` key is not modelled; a missing key reads as null. `ValueInjection.php` is not part of this model, so `__set_state` follows what the tests assert.
- Resolver.Export: only non-emptiness and the success/failure split are stated, not the exact text, for the reason above.
- Float values are opaque 64-bit patterns. No numeric reasoning is done, except that ±0.0 is falsy and loosely null.
- The deprecation mechanism (`trigger_error`, PHPUnit's `Deprecated`) is modelled as a returned notice list. The message text is not taken from the source.
- The tests' stream fixture setup and teardown is resource I/O. A resource is the `Resource` variant.
- The container's `get` appears only as emitted text and as a `map` in `toValue`.
- PHP's coercion of numeric-string array keys to integers is not modelled. Keys are kept as given.
- Integers are unbounded. PHP's 64-bit integers and their overflow to float are not modelled.
- PCRE case folding is modelled for ASCII letters only, which is what the `i` flag does under the default locale.
