# Autofac.Configuration registration engine, modelled in Dafny

Autofac.Configuration reads a configuration tree, such as one loaded from
JSON or XML, and turns it into registrations on an Autofac `ContainerBuilder`.

The model covers the engine's decision logic:

- **Settings classifier.** A parameter or property setting is a scalar when
  it has no children. It is a `ConfiguredListParameter` when its child keys
  are 0, 1, …, n-1. Otherwise it is a `ConfiguredDictionaryParameter`.
- **Resolved parameters.** `GetParameters` and `GetProperties` build them
  from the `parameters` and `properties` sections.
- **Lookups.** `GetType`, `GetAssembly` and `DefaultAssembly`.
- **String grammars.** The flexible boolean (`ToFlexibleBoolean`), the
  lifetime scope and the ownership settings.
- **Conversion chain.** `TypeManipulation.ChangeToCompatibleType`, plus the
  type converters of the configured list and dictionary parameters.
- **Component registrar.** One `RegisterType` per entry of `components`.
  Each is followed by its services, parameters, properties, metadata,
  scope, ownership, property injection and auto-activation, in that order.
- **Module registrar.** Per `modules` entry, it picks the first constructor
  with the most parameters. It builds the argument array by parameter name,
  invokes the constructor, binds `properties` and registers the module.
- **Configuration registrar.** It registers the modules first, then the
  components.

How the parts are modelled:

- **Container builder.** A class whose `calls` field logs every builder
  and registration-builder call in order. `RegisterType`, `As`,
  `WithParameter`, `SingleInstance`, `RegisterModule` and the rest each
  append to it.
- **Registrar methods.** Each is an imperative method that appends to that
  log. Each is proved against a trace function: the calls the source makes
  and the exception, if any, that ends the run.
- **Exceptions and null references.** Exceptions are `Result`/`Option`
  values. A .NET null reference is `None`, or a nullable class reference
  (`ContainerBuilder?`).
- **Foreign code.** Everything the engine asks the .NET runtime or
  Microsoft.Extensions.Configuration is a function field of the `Runtime`
  datatype. This covers:
  - type and assembly loading;
  - `IsInstanceOfType` and `IsAssignableFrom`;
  - `TypeDescriptor` converters;
  - static `TryParse`;
  - `DefaultConstructorFinder`, `ConstructorInfo.Invoke`;
  - the configuration binder's `Get` and `Bind`;
  - `GetOrderedSubsections`.

  Lemmas hold for every such runtime.

Files, one module each:

| File | Contents |
|---|---|
| `wrappers.dfy` | `Option` and `Result` |
| `text.dfy` | .NET string primitives: whitespace, ordinal ignore-case comparison, `Trim`, `Replace`, `LastIndexOf`, `int.TryParse` |
| `configuration.dfy` | the `IConfiguration` tree: `GetSection`, the indexer |
| `runtime.dfy` | types, objects, exceptions and the runtime oracles |
| `string_extensions.dfy` | `ToFlexibleBoolean` |
| `reflection_extensions.dfy` | `TryGetDeclaringProperty` |
| `configured_list_parameter.dfy`, `configured_dictionary_parameter.dfy` | `GetInstantiableType` and `CanConvertTo` of both converters |
| `type_manipulation.dfy` | the conversion chain, with the two converters' `ConvertTo` specified by recursion through it |
| `list_type_converter.dfy`, `dictionary_type_converter.dfy` | the `ConvertTo` loops |
| `configuration_extensions.dfy` | key names, the classifier, parameters, properties, type and assembly lookup |
| `builder.dfy` | the builder's call log and the trace combinators |
| `component_registrar.dfy`, `module_registrar.dfy`, `configuration_registrar.dfy` | the three registrars |

Two behaviours of the code worth knowing:

- **Metadata without a `type`.** The code passes the missing type name to
  `Type.GetType`, which throws `ArgumentNullException` (ComponentRegistrar.cs
  line 166). The model gives that error.
- **Unchecked keys.** `components`, `services` and `metadata` are
  enumerated with `GetChildren()` and their keys are not checked
  (ComponentRegistrar.cs lines 72, 112 and 164). The model checks no keys
  either. Only `modules` goes through `GetOrderedSubsections`, whose check
  belongs to the runtime oracle.

## Model

| member | source | states |
|---|---|---|
| Text.IsWhiteSpace | src/Autofac.Configuration/Util/StringExtensions.cs:27 | `Char.IsWhiteSpace`: space, tab, line feed and carriage return are whitespace; no letter or digit is |
| Text.IsNullOrWhiteSpace | src/Autofac.Configuration/Util/StringExtensions.cs:27 | `string.IsNullOrWhiteSpace`: null and empty text qualify; text starting with a non-whitespace character does not |
| Text.EqualsIgnoreCase | src/Autofac.Configuration/Util/StringExtensions.cs:28-38 | `OrdinalIgnoreCase` equality: equal texts are equal ignoring case, and texts equal ignoring case have the same length |
| Text.LowerChar | src/Autofac.Configuration/Util/StringExtensions.cs:28-38 | OrdinalIgnoreCase folding of one character: it maps an ASCII capital to a different lower-case letter and leaves every other character unchanged |
| Text.Lower | src/Autofac.Configuration/Core/ComponentRegistrar.cs:520 | the folded text has the same length as the original |
| Text.LowerOfLowerCase | src/Autofac.Configuration/Core/ComponentRegistrar.cs:520-541 | text without capitals is its own folding, so comparing a folded setting with a lower-case grammar word is the ignore-case comparison |
| Text.SameLowerSameBlank | src/Autofac.Configuration/Util/StringExtensions.cs:27-31 | two strings equal ignoring case are whitespace-only together |
| Text.Trim | src/Autofac.Configuration/Core/ComponentRegistrar.cs:389 | the trimmed text neither starts nor ends with whitespace |
| Text.RemoveChar | src/Autofac.Configuration/Core/ComponentRegistrar.cs:389 | `Replace("-", "")`: no hyphen remains, the result is no longer than the input, and text without hyphens is unchanged |
| Text.RemoveCharAppend | src/Autofac.Configuration/Core/ComponentRegistrar.cs:519 | removing a character distributes over concatenation |
| Text.RemoveCharInserted | src/Autofac.Configuration/Core/ComponentRegistrar.cs:519 | inserting one more hyphen anywhere does not change the text after removal |
| Text.LastIndexOf | src/Autofac.Configuration/Core/ConfigurationExtensions.cs:305 | -1 or the index of a colon, with no colon after it |
| Text.ParseInt32 | src/Autofac.Configuration/Core/ConfigurationExtensions.cs:258 | `int.TryParse` with `NumberStyles.Integer` (surrounding white, a sign, digits, trailing NULs ignored) only succeeds with a value in the 32-bit range |
| Text.NatToString | src/Autofac.Configuration/Core/ConfigurationExtensions.cs:262 | the decimal text of an index is non-empty and all digits |
| Text.DigitsValueOfNatToString | src/Autofac.Configuration/Core/ConfigurationExtensions.cs:262 | the digits of an index read back as that index |
| Text.ParseInt32OfNatToString | src/Autofac.Configuration/Core/ConfigurationExtensions.cs:258-262 | round trip: the key written for index n parses back to n |
| Configuration.Missing | src/Autofac.Configuration/Core/ComponentRegistrar.cs:112 | a section that is not there has no value and no children |
| Configuration.FindChild | src/Autofac.Configuration/Core/ComponentRegistrar.cs:119 | the child found has the key, ignoring case; when none is found, no child has it |
| Configuration.GetSection | src/Autofac.Configuration/Core/ComponentRegistrar.cs:72 | `GetSection` is the matching child, or an empty section when there is none |
| Configuration.Get | src/Autofac.Configuration/Core/ComponentRegistrar.cs:119 | the indexer returns the value of a child whose key matches ignoring case |
| Runtime.StringObj | src/Autofac.Configuration/Core/ComponentRegistrar.cs:166 | a missing string is the null object, and only it is |
| StringExtensions.WordsAreLowerCase | src/Autofac.Configuration/Util/StringExtensions.cs:28-38 | every word of the boolean grammar is its own case folding |
| StringExtensions.TrueAndFalseWordsDisjoint | src/Autofac.Configuration/Util/StringExtensions.cs:27-41 | no spelling is both true and false |
| StringExtensions.WordStartsWithLetterOrDigit | src/Autofac.Configuration/Util/StringExtensions.cs:28-38 | every word of the grammar is non-empty and does not start with whitespace |
| StringExtensions.WordEndsWithLetterOrDigit | src/Autofac.Configuration/Util/StringExtensions.cs:28-38 | no word of the grammar ends with whitespace |
| StringExtensions.BlankIsNoWord | src/Autofac.Configuration/Util/StringExtensions.cs:27 | whitespace-only text folds to no word of the grammar |
| StringExtensions.IsFalseWord | src/Autofac.Configuration/Util/StringExtensions.cs:28-31 | "false", "no", "n", "0" in any letter case |
| StringExtensions.IsTrueWord | src/Autofac.Configuration/Util/StringExtensions.cs:35-38 | "true", "yes", "y", "1" in any letter case |
| StringExtensions.ToFlexibleBoolean | src/Autofac.Configuration/Util/StringExtensions.cs:25-44 | false exactly for null, blank or a false word; true exactly for a true word; otherwise InvalidOperationException naming the value |
| StringExtensions.ToFlexibleBooleanIgnoresCase | src/Autofac.Configuration/Util/StringExtensions.cs:27-41 | inputs equal ignoring case succeed together and give the same answer |
| StringExtensions.ToFlexibleBooleanOfBlank | src/Autofac.Configuration/Util/StringExtensions.cs:27 | null and "  " are false |
| StringExtensions.ToFlexibleBooleanOfMixedCase | src/Autofac.Configuration/Util/StringExtensions.cs:29-36 | "No" is false and "YES" is true |
| StringExtensions.ToFlexibleBooleanRejectsPadding | src/Autofac.Configuration/Util/StringExtensions.cs:27-43 | input is not trimmed: a grammar word with a space before it or after it is an InvalidOperationException |
| ReflectionExtensions.TryGetDeclaringProperty | src/Autofac.Configuration/Util/ReflectionExtensions.cs:19-30 | true exactly for a special-name method whose name starts with "set_" (ordinal); the property looked up is the name without its first four characters; on false the property is null |
| ReflectionExtensions.IsPropertySetter | src/Autofac.Configuration/Util/ReflectionExtensions.cs:22 | a setter is a method whose name starts with "set_" in that exact case: never a getter, never "Set_" |
| ReflectionExtensions.DeclaringPropertyNameRoundTrip | src/Autofac.Configuration/Util/ReflectionExtensions.cs:22-24 | "set_" followed by the looked-up name gives back the method name |
| ReflectionExtensions.NonSettersHaveNoProperty | src/Autofac.Configuration/Util/ReflectionExtensions.cs:21-29 | constructors, ordinary methods and special names with another prefix give (false, null) |
| ReflectionExtensions.SetterWithoutPropertyIsStillSetter | src/Autofac.Configuration/Util/ReflectionExtensions.cs:24-25 | a setter whose property is not found still answers true, with a null property |
| ConfiguredListParameter.ListGenerics | src/Autofac.Configuration/Util/ConfiguredListParameter.cs:51 | a non-generic destination uses the single argument `object` |
| ConfiguredListParameter.GetInstantiableType | src/Autofac.Configuration/Util/ConfiguredListParameter.cs:47-66 | `List<T>` exactly when the destination is IEnumerable, has one type argument and accepts `List<T>` |
| ConfiguredListParameter.CanConvertTo | src/Autofac.Configuration/Util/ConfiguredListParameter.cs:37-45 | true exactly when an instantiable type exists or the base converter accepts the destination |
| ConfiguredListParameter.NonGenericDestinationUsesObject | src/Autofac.Configuration/Util/ConfiguredListParameter.cs:51-61 | a non-generic enumerable destination that accepts `List<object>` gets `List<object>` |
| ConfiguredListParameter.WrongArityHasNoInstantiableType | src/Autofac.Configuration/Util/ConfiguredListParameter.cs:52-55 | a generic destination without exactly one type argument has no instantiable type |
| ConfiguredDictionaryParameter.DictionaryGenerics | src/Autofac.Configuration/Util/ConfiguredDictionaryParameter.cs:64 | a non-generic destination uses `string` and `object` |
| ConfiguredDictionaryParameter.GetInstantiableType | src/Autofac.Configuration/Util/ConfiguredDictionaryParameter.cs:59-78 | `Dictionary<K, V>` exactly when the destination is a dictionary with two type arguments that accepts it, K and V being the destination's own type arguments (or string and object) |
| ConfiguredDictionaryParameter.CanConvertTo | src/Autofac.Configuration/Util/ConfiguredDictionaryParameter.cs:54-57 | true exactly when an instantiable type exists or the base converter accepts the destination |
| ConfiguredDictionaryParameter.NonGenericDestinationUsesStringObject | src/Autofac.Configuration/Util/ConfiguredDictionaryParameter.cs:61-64 | a non-generic IDictionary destination gets `Dictionary<string, object>` |
| ConfiguredDictionaryParameter.WrongArityHasNoInstantiableType | src/Autofac.Configuration/Util/ConfiguredDictionaryParameter.cs:65-68 | a generic destination without exactly two type arguments has no instantiable type |
| TypeManipulation.GetTypeConverterFromName | src/Autofac.Configuration/Util/TypeManipulation.cs:180-190 | an unknown type name is a TypeLoadException; a type that is not a TypeConverter is an InvalidOperationException; it succeeds exactly when both hold |
| TypeManipulation.TryParse | src/Autofac.Configuration/Util/TypeManipulation.cs:151-162 | only strings are parsed, and only when the destination has a static TryParse |
| TypeManipulation.ChangeToCompatibleType | src/Autofac.Configuration/Util/TypeManipulation.cs:106-122 | a null destination is ArgumentNullException; null becomes the default of a value type or null; a value already of the type is returned unchanged |
| TypeManipulation.FirstAnswer | src/Autofac.Configuration/Util/TypeManipulation.cs:124-164 | the answer of the first step that answers, or the fallback when none does |
| TypeManipulation.Outcomes | src/Autofac.Configuration/Util/TypeManipulation.cs:124-162 | the four converter steps, in the order they are tried |
| TypeManipulation.ChangeToCompatibleTypeIsFirstAnswer | src/Autofac.Configuration/Util/TypeManipulation.cs:124-164 | after null and compatible values, the result is the first answer of attribute, source converter, destination converter, TryParse, else the unsupported-conversion error |
| TypeManipulation.UnusableAttributeFallsThrough | src/Autofac.Configuration/Util/TypeManipulation.cs:127-134 | an attribute converter that cannot convert from the value's type is passed over without error |
| TypeManipulation.BrokenAttributeFails | src/Autofac.Configuration/Util/TypeManipulation.cs:180-190 | an attribute naming a type that cannot be loaded or is not a converter fails the conversion with that error |
| TypeManipulation.AttributeAnswerIgnoresLaterSteps | src/Autofac.Configuration/Util/TypeManipulation.cs:130-133 | once the attribute's converter answers, the later converters do not matter |
| TypeManipulation.TryParseIsLastResort | src/Autofac.Configuration/Util/TypeManipulation.cs:137-157 | when an earlier converter answers, TryParse methods change nothing |
| TypeManipulation.NonStringsAreNotParsed | src/Autofac.Configuration/Util/TypeManipulation.cs:151-164 | a non-string value that no converter takes is an unsupported-conversion error |
| TypeManipulation.AttributeOutcome | src/Autofac.Configuration/Util/TypeManipulation.cs:127-134 | the attribute's converter answers only when an attribute names one; a converter type that cannot be loaded is that error; no answer exactly when there is no attribute or its converter cannot convert from the value's type |
| TypeManipulation.SourceConvertTo | src/Autofac.Configuration/Util/TypeManipulation.cs:137-141 | a configured list or dictionary converted to a destination it can instantiate gives an instance of that list or dictionary type; any other value goes to its own type's converter |
| TypeManipulation.ConvertItems | src/Autofac.Configuration/Util/ConfiguredListParameter.cs:26-29 | on success, one converted element per item, in order |
| TypeManipulation.ConvertItem | src/Autofac.Configuration/Util/ConfiguredListParameter.cs:28 | a null item becomes the element type's default (null for a reference type); a string item already of the element type is kept |
| TypeManipulation.ListConvertTo | src/Autofac.Configuration/Util/ConfiguredListParameter.cs:17-35 | a configured list converted to a destination it can instantiate gives a list of that type with one element per item |
| TypeManipulation.ConvertItemsFailsAtFirstFailure | src/Autofac.Configuration/Util/ConfiguredListParameter.cs:26-29 | a failed list failed at some item, with that item's error, after every earlier item converted |
| TypeManipulation.ConvertItemsFailurePersists | src/Autofac.Configuration/Util/ConfiguredListParameter.cs:26-29 | a failing prefix decides the whole list |
| TypeManipulation.ListConvertToKeepsItems | src/Autofac.Configuration/Util/ConfiguredListParameter.cs:19-31 | a configured list becomes a `List<T>` of the same length and order, each item converted to T; it fails exactly when some item fails, with the first failing item's error |
| TypeManipulation.ObjectListKeepsStrings | src/Autofac.Configuration/Util/ConfiguredListParameter.cs:51 | a non-generic destination keeps the strings unconverted |
| TypeManipulation.ListConvertToDefersToBase | src/Autofac.Configuration/Util/ConfiguredListParameter.cs:34 | anything else goes to the base converter |
| TypeManipulation.Keys | src/Autofac.Configuration/Util/ConfiguredDictionaryParameter.cs:44 | the keys already added, in order |
| TypeManipulation.ConvertKey | src/Autofac.Configuration/Util/ConfiguredDictionaryParameter.cs:41 | a key that is already of the key type is kept |
| TypeManipulation.ConvertValue | src/Autofac.Configuration/Util/ConfiguredDictionaryParameter.cs:42 | a null value becomes the value type's default (null for a reference type); a string value already of the value type is kept |
| TypeManipulation.AddEntry | src/Autofac.Configuration/Util/ConfiguredDictionaryParameter.cs:36-44 | an empty key is a FormatException; the step succeeds exactly when key and value convert and the converted key is new, and then it appends that pair |
| TypeManipulation.AddEntries | src/Autofac.Configuration/Util/ConfiguredDictionaryParameter.cs:34-45 | on success, one converted pair per entry, in order, with distinct keys |
| TypeManipulation.AddEntriesOfDistinctKeys | src/Autofac.Configuration/Util/ConfiguredDictionaryParameter.cs:44 | entries that convert to distinct keys give as many pairs as entries |
| TypeManipulation.KeyCollisionFails | src/Autofac.Configuration/Util/ConfiguredDictionaryParameter.cs:44 | two entries whose keys convert alike are an error, not an overwrite |
| TypeManipulation.EmptyKeyFails | src/Autofac.Configuration/Util/ConfiguredDictionaryParameter.cs:36-39 | an empty key anywhere fails the conversion |
| TypeManipulation.AddEntriesFailurePersists | src/Autofac.Configuration/Util/ConfiguredDictionaryParameter.cs:34-45 | a failing prefix decides the whole dictionary |
| TypeManipulation.NullDictionaryIsEmpty | src/Autofac.Configuration/Util/ConfiguredDictionaryParameter.cs:29-48 | a null configured dictionary gives an empty dictionary, not an error |
| TypeManipulation.DictionaryConvertTo | src/Autofac.Configuration/Util/ConfiguredDictionaryParameter.cs:23-52 | a configured dictionary converted to a destination it can instantiate gives a dictionary of that type with one pair per entry (none for a null dictionary) |
| TypeManipulation.DictionaryConvertToDefersToBase | src/Autofac.Configuration/Util/ConfiguredDictionaryParameter.cs:51 | anything else goes to the base converter |
| ListTypeConverter.ConvertTo | src/Autofac.Configuration/Util/ConfiguredListParameter.cs:17-35 | the loop computes ListConvertTo, whose properties are the lemmas above |
| DictionaryTypeConverter.AddConverted | src/Autofac.Configuration/Util/ConfiguredDictionaryParameter.cs:36-44 | one loop body computes AddEntry |
| DictionaryTypeConverter.FoldFailurePersists | src/Autofac.Configuration/Util/ConfiguredDictionaryParameter.cs:34-45 | a loop that has thrown is not resumed |
| DictionaryTypeConverter.AddEntriesIsFold | src/Autofac.Configuration/Util/ConfiguredDictionaryParameter.cs:34-45 | adding the entries is the loop of AddEntry steps from the empty dictionary |
| DictionaryTypeConverter.AddAllConverted | src/Autofac.Configuration/Util/ConfiguredDictionaryParameter.cs:34-45 | the foreach loop computes AddEntries |
| DictionaryTypeConverter.ConvertTo | src/Autofac.Configuration/Util/ConfiguredDictionaryParameter.cs:23-52 | computes DictionaryConvertTo, whose properties are the lemmas above |
| ConfigurationExtensions.GetKeyName | src/Autofac.Configuration/Core/ConfigurationExtensions.cs:303-312 | the result has no colon and is a suffix of the key; a key without a colon is returned whole; otherwise a colon immediately precedes the result |
| ConfigurationExtensions.GetKeyNameExamples | src/Autofac.Configuration/Core/ConfigurationExtensions.cs:303-312 | "configuration:full:key" gives "key", "key" gives "key", "trailing:" gives "" |
| ConfigurationExtensions.SubKeys | src/Autofac.Configuration/Core/ConfigurationExtensions.cs:250 | one (key name, value) pair per child, in order |
| ConfigurationExtensions.Values | src/Autofac.Configuration/Core/ConfigurationExtensions.cs:275-279 | the child values in order |
| ConfigurationExtensions.LookupFindsPresentKeys | src/Autofac.Configuration/Core/ConfigurationExtensions.cs:289 | a dictionary lookup succeeds exactly for present keys |
| ConfigurationExtensions.Assign | src/Autofac.Configuration/Core/ConfigurationExtensions.cs:289 | after `dict[key] = value` the key maps to the value; an existing key keeps its place, a new one goes last |
| ConfigurationExtensions.AssignChangesOnlyItsKey | src/Autofac.Configuration/Core/ConfigurationExtensions.cs:289 | the indexer changes the lookup of its own key only |
| ConfigurationExtensions.AssignKeepsKeysDistinct | src/Autofac.Configuration/Core/ConfigurationExtensions.cs:289 | the indexer keeps keys distinct |
| ConfigurationExtensions.AssignAllKeysDistinct | src/Autofac.Configuration/Core/ConfigurationExtensions.cs:286-290 | the dictionary loop never holds a key twice |
| ConfigurationExtensions.AssignAllHasEveryKey | src/Autofac.Configuration/Core/ConfigurationExtensions.cs:286-290 | the dictionary holds exactly the key names that occur |
| ConfigurationExtensions.AssignAllIsLastWins | src/Autofac.Configuration/Core/ConfigurationExtensions.cs:286-290 | each key holds the value of its last occurrence |
| ConfigurationExtensions.Classify | src/Autofac.Configuration/Core/ConfigurationExtensions.cs:250-255 | no children is the section's own value |
| ConfigurationExtensions.ParameterValue | src/Autofac.Configuration/Core/ConfigurationExtensions.cs:248-255 | a section without children is its own (possibly null) value |
| ConfigurationExtensions.ParsedKeys | src/Autofac.Configuration/Core/ConfigurationExtensions.cs:262 | the keys parsed as integers, in order |
| ConfigurationExtensions.WalkOrdinalKeys | src/Autofac.Configuration/Core/ConfigurationExtensions.cs:260-271 | the counting loop reports a list exactly when key k is k for every k |
| ConfigurationExtensions.CollectValues | src/Autofac.Configuration/Core/ConfigurationExtensions.cs:275-281 | the list loop collects the child values in order |
| ConfigurationExtensions.FillDictionary | src/Autofac.Configuration/Core/ConfigurationExtensions.cs:286-292 | the dictionary loop assigns every pair in turn |
| ConfigurationExtensions.GetConfiguredParameterValue | src/Autofac.Configuration/Core/ConfigurationExtensions.cs:248-293 | computes ParameterValue, whose properties are the lemmas here |
| ConfigurationExtensions.ClassifySubKeys | src/Autofac.Configuration/Core/ConfigurationExtensions.cs:251-292 | computes Classify on the pairs already read |
| ConfigurationExtensions.AssignAllStep | src/Autofac.Configuration/Core/ConfigurationExtensions.cs:287-290 | one more assignment changes only the lookup of its key |
| ConfigurationExtensions.SubKeysAreOrdinal | src/Autofac.Configuration/Core/ConfigurationExtensions.cs:258-271 | the pairs are sequential exactly when the child key names are 0..n-1 |
| ConfigurationExtensions.ParameterValueIsListIffOrdinal | src/Autofac.Configuration/Core/ConfigurationExtensions.cs:258-292 | with children: a list exactly when the key names are 0..n-1, holding the n values in order; a dictionary otherwise |
| ConfigurationExtensions.DictionaryIsLastWins | src/Autofac.Configuration/Core/ConfigurationExtensions.cs:286-292 | a non-sequential section is a dictionary with every key name once, each holding its last value |
| ConfigurationExtensions.OrdinalKeysGiveList | src/Autofac.Configuration/Core/ConfigurationExtensions.cs:258-281 | children keyed "0", "1", … give the list of their values |
| ConfigurationExtensions.AssignAllOfThreeDistinctKeys | src/Autofac.Configuration/Core/ConfigurationExtensions.cs:286-290 | three distinct keys are kept, in order |
| ConfigurationExtensions.OutOfSequenceKeysGiveDictionary | test/Autofac.Configuration.Test/Core/ConfigurationExtensions_DictionaryParametersFixture.cs:134-147 | integer keys out of sequence (0, 5, 10) give a dictionary with all three entries |
| ConfigurationExtensions.CheckArguments | src/Autofac.Configuration/Core/ConfigurationExtensions.cs:60-73 | no error exactly when configuration and key are present and the key is not blank |
| ConfigurationExtensions.ReadParameters | src/Autofac.Configuration/Core/ConfigurationExtensions.cs:117-123 | one parameter per child, in child order, named by its key name and carrying its classified value |
| ConfigurationExtensions.GetParameters | src/Autofac.Configuration/Core/ConfigurationExtensions.cs:100-125 | the argument errors; otherwise one constructor parameter per child, parameter i carrying child i's key name and configured value (ReadParameters) |
| ConfigurationExtensions.GetProperties | src/Autofac.Configuration/Core/ConfigurationExtensions.cs:143-178 | the argument errors; otherwise one property parameter per child, property i carrying child i's key name and configured value (ReadParameters) |
| ConfigurationExtensions.CanSupplyValue | src/Autofac.Configuration/Core/ConfigurationExtensions.cs:122-170 | a constructor parameter matches by name ignoring case; a property parameter matches only a setter whose property name equals the key ignoring case; a setter without a property dereferences null |
| ConfigurationExtensions.ValueFor | src/Autofac.Configuration/Core/ConfigurationExtensions.cs:123-176 | the configured value converted to the parameter type: with the parameter's converter attribute for a constructor parameter, with the declaring property's converter attribute for a property setter whose property is found, and with none when it is not |
| ConfigurationExtensions.PropertiesDoNotMatchConstructorParameters | src/Autofac.Configuration/Core/ConfigurationExtensions.cs:165-170 | a property rule never matches a constructor parameter |
| ConfigurationExtensions.ParameterNamesIgnoreCase | src/Autofac.Configuration/Core/ConfigurationExtensions.cs:122 | "name" and "NAME" both match a parameter called "Name" |
| ConfigurationExtensions.GetType | src/Autofac.Configuration/Core/ConfigurationExtensions.cs:203-225 | a null configuration or type name is ArgumentNullException; the name is loaded as it is, then from the default assembly ignoring case, else InvalidOperationException |
| ConfigurationExtensions.GetTypePrefersExactName | src/Autofac.Configuration/Core/ConfigurationExtensions.cs:211-217 | a name that loads as it is never consults the default assembly |
| ConfigurationExtensions.GetAssembly | src/Autofac.Configuration/Core/ConfigurationExtensions.cs:58-82 | the argument errors; a missing or blank name is no assembly; any other name is loaded |
| ConfigurationExtensions.DefaultAssembly | src/Autofac.Configuration/Core/ConfigurationExtensions.cs:32-35 | the assembly named by "defaultAssembly", if any |
| ConfigurationExtensions.KeyChecksAgree | src/Autofac.Configuration/Core/ConfigurationExtensions.cs:60-158 | the three readers reject a null key and a blank key alike |
| Builder.Collect | src/Autofac.Configuration/Core/ComponentRegistrar.cs:112-128 | a foreach of steps: the items produced are the steps' results in order, and an exception stops it at the failing item |
| Builder.CollectStopsAtFailure | src/Autofac.Configuration/Core/ComponentRegistrar.cs:164-167 | items after a failing one are never reached |
| Builder.RunStepsNext | src/Autofac.Configuration/Core/ComponentRegistrar.cs:75-82 | a further step appends its calls and takes its exception |
| Builder.RunStepsNextAfter | src/Autofac.Configuration/Core/ComponentRegistrar.cs:75-82 | the same, for a log that already held calls |
| Builder.ThenAfter | src/Autofac.Configuration/Core/ConfigurationRegistrar.cs:100-101 | after a completed first part, the log holds its calls, then the second part's, and the second part's error |
| Builder.RunStepsStopsAtFailure | src/Autofac.Configuration/Core/ComponentRegistrar.cs:75-82 | once a step throws, later steps never run |
| Builder.RunStepsCompleted | src/Autofac.Configuration/Core/ComponentRegistrar.cs:75-82 | a completed run had no step that threw |
| Builder.RunStepsKeeps | src/Autofac.Configuration/Core/ComponentRegistrar.cs:75-82 | a property of every step's calls holds for the whole run |
| Builder.ContainerBuilder.constructor | src/Autofac.Configuration/Core/ConfigurationRegistrar.cs:88 | a new builder has recorded no calls |
| Builder.ContainerBuilder.Record | src/Autofac.Configuration/Core/ComponentRegistrar.cs:74 | one builder call is appended to the log |
| Builder.ContainerBuilder.RecordEach | src/Autofac.Configuration/Core/ModuleRegistrar.cs:52-59 | a foreach that makes one call per item: the log grows by the items' calls in order, until one item throws |
| ComponentRegistrar.Normalize | src/Autofac.Configuration/Core/ComponentRegistrar.cs:519 | the trimmed, hyphen-stripped setting contains no hyphen |
| ComponentRegistrar.GrammarWordsAreLowerCase | src/Autofac.Configuration/Core/ComponentRegistrar.cs:520-541 | the scope and ownership words are their own case folding |
| ComponentRegistrar.ParseInstanceScope | src/Autofac.Configuration/Core/ComponentRegistrar.cs:513-547 | a blank setting changes nothing; a recognised normalised word maps to its scope; anything else is InvalidOperationException carrying the normalised text |
| ComponentRegistrar.ParseOwnership | src/Autofac.Configuration/Core/ComponentRegistrar.cs:383-403 | a blank setting changes nothing; "lifetimescope", "external" and "externallyowned" map to their ownership; anything else is InvalidOperationException carrying the normalised text |
| ComponentRegistrar.TrimOfUnpadded | src/Autofac.Configuration/Core/ComponentRegistrar.cs:519 | trimming text without surrounding whitespace changes nothing |
| ComponentRegistrar.NormalizeIgnoresHyphen | src/Autofac.Configuration/Core/ComponentRegistrar.cs:519 | inserting a hyphen anywhere does not change the normalised setting |
| ComponentRegistrar.ScopeIgnoresHyphenPlacement | src/Autofac.Configuration/Core/ComponentRegistrar.cs:519-547 | hyphen placement does not change the scope parsed |
| ComponentRegistrar.OwnershipIgnoresHyphenPlacement | src/Autofac.Configuration/Core/ComponentRegistrar.cs:389-403 | hyphen placement does not change the ownership parsed |
| ComponentRegistrar.EmptyNormalizedScopeIsRejected | src/Autofac.Configuration/Core/ComponentRegistrar.cs:514-547 | a non-blank setting that normalises to nothing is an error naming the empty text |
| ComponentRegistrar.EmptyNormalizedOwnershipIsRejected | src/Autofac.Configuration/Core/ComponentRegistrar.cs:384-403 | the same for ownership |
| ComponentRegistrar.HyphensOnlyNormalizeToNothing | src/Autofac.Configuration/Core/ComponentRegistrar.cs:384-389 | "-" and "--" are not blank but normalise to nothing |
| ComponentRegistrar.ScopeNamed | src/Autofac.Configuration/Core/ComponentRegistrar.cs:520-541 | each scope is named by exactly its words: "singleinstance"; "instanceperlifetimescope" or "perlifetimescope"; "instanceperdependency" or "perdependency"; "instanceperrequest" or "perrequest" |
| ComponentRegistrar.OwnershipNamed | src/Autofac.Configuration/Core/ComponentRegistrar.cs:390-400 | each ownership is named by exactly its words: "lifetimescope"; "external" or "externallyowned" |
| ComponentRegistrar.ServiceFor | src/Autofac.Configuration/Core/ComponentRegistrar.cs:118-127 | a type that fails to resolve is that error; otherwise a keyed service exactly when "key" is neither null nor empty, carrying that key |
| ComponentRegistrar.ServiceIgnoresName | src/Autofac.Configuration/Core/ComponentRegistrar.cs:114-119 | adding a "name" field changes no service |
| ComponentRegistrar.EnumerateComponentServices | src/Autofac.Configuration/Core/ComponentRegistrar.cs:105-129 | a null component is ArgumentNullException; otherwise the services of the entries in order, all of them unless a type fails |
| ComponentRegistrar.AsCalls | src/Autofac.Configuration/Core/ComponentRegistrar.cs:273-276 | one As per service, in order |
| ComponentRegistrar.AsCallsAppend | src/Autofac.Configuration/Core/ComponentRegistrar.cs:273-276 | one more service adds one As at the end |
| ComponentRegistrar.ServicesTrace | src/Autofac.Configuration/Core/ComponentRegistrar.cs:259-277 | the services step's error is the enumeration's; call i is As of service i, one per service |
| ComponentRegistrar.WithParameterCalls | src/Autofac.Configuration/Core/ComponentRegistrar.cs:199-202 | one WithParameter per parameter, in order |
| ComponentRegistrar.WithPropertyCalls | src/Autofac.Configuration/Core/ComponentRegistrar.cs:234-237 | one WithProperty per property, in order |
| ComponentRegistrar.ParametersTrace | src/Autofac.Configuration/Core/ComponentRegistrar.cs:185-203 | a null component is ArgumentNullException; every call is a WithParameter of a constructor parameter |
| ComponentRegistrar.PropertiesTrace | src/Autofac.Configuration/Core/ComponentRegistrar.cs:220-238 | a null component is ArgumentNullException; every call is a WithProperty of a property setter parameter |
| ComponentRegistrar.ParametersAndPropertiesNeverFail | src/Autofac.Configuration/Core/ComponentRegistrar.cs:199-237 | each child of "parameters" and of "properties" becomes exactly one call, in order, without error |
| ComponentRegistrar.MetadataFor | src/Autofac.Configuration/Core/ComponentRegistrar.cs:166 | the entry's type is resolved first; then WithMetadata under "key", with "value" converted to that type, or the conversion's error |
| ComponentRegistrar.MetadataKeepsStringsOfTheirType | src/Autofac.Configuration/Core/ComponentRegistrar.cs:166 | a value already of the declared type is recorded unchanged |
| ComponentRegistrar.MetadataTrace | src/Autofac.Configuration/Core/ComponentRegistrar.cs:150-168 | a null component is ArgumentNullException; every call is a WithMetadata |
| ComponentRegistrar.ScopeTrace | src/Autofac.Configuration/Core/ComponentRegistrar.cs:504-548 | at most one call, a scope call; a null component is a null dereference; a blank setting makes no call and no error |
| ComponentRegistrar.OwnershipTrace | src/Autofac.Configuration/Core/ComponentRegistrar.cs:374-404 | at most one call, an ownership call; a null component is a null dereference; a blank setting makes no call and no error |
| ComponentRegistrar.FlagTrace | src/Autofac.Configuration/Core/ComponentRegistrar.cs:445-448 | the call is made exactly when the flag reads as true; none for false; otherwise the boolean's error |
| ComponentRegistrar.ComponentSteps | src/Autofac.Configuration/Core/ComponentRegistrar.cs:75-82 | a component has eight configuration steps |
| ComponentRegistrar.ComponentTrace | src/Autofac.Configuration/Core/ComponentRegistrar.cs:74-82 | a type that fails to resolve is that error with no call; otherwise the first call is RegisterType of the resolved type |
| ComponentRegistrar.ServicesAtStep | src/Autofac.Configuration/Core/ComponentRegistrar.cs:75 | the services step makes only As calls |
| ComponentRegistrar.ParametersAtStep | src/Autofac.Configuration/Core/ComponentRegistrar.cs:76-77 | the parameters and properties steps make only WithParameter and WithProperty calls respectively |
| ComponentRegistrar.MetadataAtStep | src/Autofac.Configuration/Core/ComponentRegistrar.cs:78 | the metadata step makes only WithMetadata calls |
| ComponentRegistrar.ScopeAtStep | src/Autofac.Configuration/Core/ComponentRegistrar.cs:79 | the scope step makes at most one scope call |
| ComponentRegistrar.OwnershipAtStep | src/Autofac.Configuration/Core/ComponentRegistrar.cs:80 | the ownership step makes at most one ownership call |
| ComponentRegistrar.ComponentStepKind | src/Autofac.Configuration/Core/ComponentRegistrar.cs:75-82 | step k makes only calls of kind k |
| ComponentRegistrar.ComponentStepKinds | src/Autofac.Configuration/Core/ComponentRegistrar.cs:75-82 | the same for all eight steps at once |
| ComponentRegistrar.RunStepsOrdered | src/Autofac.Configuration/Core/ComponentRegistrar.cs:75-82 | the calls of steps run in order never go back to an earlier kind |
| ComponentRegistrar.RegistrationInOrder | src/Autofac.Configuration/Core/ComponentRegistrar.cs:74-82 | RegisterType comes first, then the step calls in order |
| ComponentRegistrar.ComponentStepsInOrder | src/Autofac.Configuration/Core/ComponentRegistrar.cs:74-82 | a component's calls: RegisterType of its type first (exactly when the type resolves), then services, parameters, properties, metadata, scope, ownership, property injection, auto-activation |
| ComponentRegistrar.ComponentOutcomes | src/Autofac.Configuration/Core/ComponentRegistrar.cs:72-83 | one outcome per component |
| ComponentRegistrar.ComponentsTrace | src/Autofac.Configuration/Core/ComponentRegistrar.cs:72-83 | a run without exception completed every component without exception |
| ComponentRegistrar.RegisterComponentsTrace | src/Autofac.Configuration/Core/ComponentRegistrar.cs:59-84 | a null configuration is ArgumentNullException; no call made is a RegisterModule |
| ComponentRegistrar.RegisteredTypes | src/Autofac.Configuration/Core/ComponentRegistrar.cs:74 | at most one type per call |
| ComponentRegistrar.RegisteredTypesAppend | src/Autofac.Configuration/Core/ComponentRegistrar.cs:72-83 | the registered types of two logs are concatenated |
| ComponentRegistrar.NoRegisteredTypes | src/Autofac.Configuration/Core/ComponentRegistrar.cs:75-82 | the configuration steps register no type |
| ComponentRegistrar.ComponentRegistersItsType | src/Autofac.Configuration/Core/ComponentRegistrar.cs:74-82 | a component that completes registers exactly its own type once |
| ComponentRegistrar.RunStepsRegisteredTypes | src/Autofac.Configuration/Core/ComponentRegistrar.cs:72-83 | completed components contribute their types in order |
| ComponentRegistrar.OneRegistrationPerComponent | src/Autofac.Configuration/Core/ComponentRegistrar.cs:72-83 | a completed run registers exactly one type per component entry, in entry order, repeated types included |
| ComponentRegistrar.ComponentsRegisterNoModules | src/Autofac.Configuration/Core/ComponentRegistrar.cs:72-83 | component registration never registers a module |
| ComponentRegistrar.ComponentRegistrar.RegisterConfiguredComponents | src/Autofac.Configuration/Core/ComponentRegistrar.cs:59-84 | null builder or configuration is ArgumentNullException; otherwise the log grows by the components' calls, until the first exception |
| ComponentRegistrar.ComponentRegistrar.RegisterComponent | src/Autofac.Configuration/Core/ComponentRegistrar.cs:74-82 | one loop iteration makes the component's calls |
| ComponentRegistrar.ComponentRegistrar.ConfigureComponent | src/Autofac.Configuration/Core/ComponentRegistrar.cs:75-82 | the eight configuration calls run in order, stopping at the first exception |
| ComponentRegistrar.ComponentRegistrar.ConfigureRegistration | src/Autofac.Configuration/Core/ComponentRegistrar.cs:75-78 | the first four steps, continuing a run |
| ComponentRegistrar.ComponentRegistrar.ConfigureServices | src/Autofac.Configuration/Core/ComponentRegistrar.cs:75-76 | services and parameters, continuing a run |
| ComponentRegistrar.ComponentRegistrar.ConfigureProperties | src/Autofac.Configuration/Core/ComponentRegistrar.cs:77-78 | properties and metadata, continuing a run |
| ComponentRegistrar.ComponentRegistrar.ConfigureSettings | src/Autofac.Configuration/Core/ComponentRegistrar.cs:79-82 | the last four steps, continuing a run |
| ComponentRegistrar.ComponentRegistrar.ConfigureOwnership | src/Autofac.Configuration/Core/ComponentRegistrar.cs:79-80 | scope and ownership, continuing a run |
| ComponentRegistrar.ComponentRegistrar.ConfigureFlags | src/Autofac.Configuration/Core/ComponentRegistrar.cs:81-82 | property injection and auto-activation, continuing a run |
| ComponentRegistrar.ComponentRegistrar.ConfigurationStep | src/Autofac.Configuration/Core/ComponentRegistrar.cs:75-82 | one configuration step continues the run by its calls |
| ComponentRegistrar.ComponentRegistrar.ComponentStepCalls | src/Autofac.Configuration/Core/ComponentRegistrar.cs:75-82 | configuration step k makes exactly that step's calls |
| ComponentRegistrar.ComponentRegistrar.RegisterComponentServices | src/Autofac.Configuration/Core/ComponentRegistrar.cs:259-277 | null component, then null registrar, is ArgumentNullException; otherwise one As per service |
| ComponentRegistrar.ComponentRegistrar.AddServiceCalls | src/Autofac.Configuration/Core/ComponentRegistrar.cs:273-276 | the foreach appends As for each service until a type fails |
| ComponentRegistrar.ComponentRegistrar.RegisterComponentParameters | src/Autofac.Configuration/Core/ComponentRegistrar.cs:185-203 | null checks, then one WithParameter per parameter |
| ComponentRegistrar.ComponentRegistrar.AddParameterCalls | src/Autofac.Configuration/Core/ComponentRegistrar.cs:199-202 | the foreach appends WithParameter for each parameter |
| ComponentRegistrar.ComponentRegistrar.RegisterComponentProperties | src/Autofac.Configuration/Core/ComponentRegistrar.cs:220-238 | null checks, then one WithProperty per property |
| ComponentRegistrar.ComponentRegistrar.AddPropertyCalls | src/Autofac.Configuration/Core/ComponentRegistrar.cs:234-237 | the foreach appends WithProperty for each property |
| ComponentRegistrar.ComponentRegistrar.RegisterComponentMetadata | src/Autofac.Configuration/Core/ComponentRegistrar.cs:150-168 | null checks, then one WithMetadata per entry until one fails |
| ComponentRegistrar.ComponentRegistrar.SetLifetimeScope | src/Autofac.Configuration/Core/ComponentRegistrar.cs:504-548 | null registrar is ArgumentNullException; otherwise at most the one scope call the setting names |
| ComponentRegistrar.ComponentRegistrar.SetComponentOwnership | src/Autofac.Configuration/Core/ComponentRegistrar.cs:374-404 | null registrar is ArgumentNullException; otherwise at most the one ownership call the setting names |
| ComponentRegistrar.ComponentRegistrar.SetInjectProperties | src/Autofac.Configuration/Core/ComponentRegistrar.cs:436-449 | PropertiesAutowired(AllowCircularDependencies) exactly when "injectProperties" reads as true |
| ComponentRegistrar.ComponentRegistrar.SetAutoActivate | src/Autofac.Configuration/Core/ComponentRegistrar.cs:309-322 | AutoActivate exactly when "autoActivate" reads as true |
| ModuleRegistrar.MostParametersIndex | src/Autofac.Configuration/Core/ModuleRegistrar.cs:87 | the index of a constructor with the most parameters, every earlier one having fewer (the stable descending sort's first) |
| ModuleRegistrar.FirstWithMostParametersIsUnique | src/Autofac.Configuration/Core/ModuleRegistrar.cs:87 | only one position is the first with the most parameters |
| ModuleRegistrar.GetMostParametersConstructor | src/Autofac.Configuration/Core/ModuleRegistrar.cs:81-88 | no constructors is NoConstructorsFoundException; otherwise the first constructor with the most parameters |
| ModuleRegistrar.ModuleArguments | src/Autofac.Configuration/Core/ModuleRegistrar.cs:66-70 | one argument per constructor parameter, in order, each bound from the "parameters" child of that parameter's name; otherwise the first binding's error |
| ModuleRegistrar.ArgumentFor | src/Autofac.Configuration/Core/ModuleRegistrar.cs:69 | the argument is the "parameters" child named like the parameter, bound to the parameter's type; a missing child is bound as an empty section |
| ModuleRegistrar.CastToModule | src/Autofac.Configuration/Core/ModuleRegistrar.cs:72 | the `(IModule)` cast passes null and modules unchanged; anything else is InvalidCastException |
| ModuleRegistrar.CreateModule | src/Autofac.Configuration/Core/ModuleRegistrar.cs:62-79 | no constructors fails; a module is the chosen constructor invoked with the arguments, cast, and then bound from "properties"; a null instance is not bound and stays null |
| ModuleRegistrar.ModuleFor | src/Autofac.Configuration/Core/ModuleRegistrar.cs:54-58 | the type resolves, the module is created, then registered; a null module is ArgumentNullException from RegisterModule; any error on the way is the entry's error; a registered module is never null |
| ModuleRegistrar.RegisterModulesTrace | src/Autofac.Configuration/Core/ModuleRegistrar.cs:39-60 | a null configuration is ArgumentNullException; every call made is a RegisterModule of a non-null module |
| ModuleRegistrar.OneModulePerEntry | src/Autofac.Configuration/Core/ModuleRegistrar.cs:51-59 | a completed run registers exactly one module per ordered entry, in order |
| ModuleRegistrar.EntriesAreNotMerged | test/Autofac.Configuration.Test/Core/ModuleRegistrarFixture.cs:10-22 | two entries register two modules, even of one type |
| ModuleRegistrar.ModuleWithoutConstructorsFails | test/Autofac.Configuration.Test/Core/ModuleRegistrarFixture.cs:32-37 | an entry whose type has no public constructor fails with NoConstructorsFoundException |
| ModuleRegistrar.ModuleRegistrar.RegisterConfiguredModules | src/Autofac.Configuration/Core/ModuleRegistrar.cs:39-60 | null builder or configuration is ArgumentNullException; otherwise one RegisterModule per entry, until the first exception |
| ConfigurationRegistrar.ConfigurationTrace | src/Autofac.Configuration/Core/ConfigurationRegistrar.cs:88-102 | a null configuration is ArgumentNullException; otherwise the module calls come first, as a prefix of the whole log |
| ConfigurationRegistrar.ModulesRegisteredBeforeComponents | src/Autofac.Configuration/Core/ConfigurationRegistrar.cs:100-101 | no RegisterModule call comes after a component call |
| ConfigurationRegistrar.ModuleFailureSkipsComponents | src/Autofac.Configuration/Core/ConfigurationRegistrar.cs:100-101 | a module failure ends the run before any component is registered |
| ConfigurationRegistrar.ConfigurationRegistrar.constructor | src/Autofac.Configuration/Core/ConfigurationRegistrar.cs:26-29 | the parameterless constructor installs new default registrars |
| ConfigurationRegistrar.ConfigurationRegistrar.WithRegistrars | src/Autofac.Configuration/Core/ConfigurationRegistrar.cs:45-49 | the registrars given are the registrars kept |
| ConfigurationRegistrar.ConfigurationRegistrar.RegisterConfiguration | src/Autofac.Configuration/Core/ConfigurationRegistrar.cs:88-102 | null builder or configuration is ArgumentNullException; otherwise module calls, then component calls |
| ConfigurationRegistrar.NewConfigurationRegistrar | src/Autofac.Configuration/Core/ConfigurationRegistrar.cs:45-49 | a null component registrar, then a null module registrar, is ArgumentNullException naming it; otherwise a registrar holding both |

## Left out

- Foreign code is modelled by oracles; the model gives no behaviour for it. This covers:
  - `Type.GetType` and `Assembly.GetType`;
  - `Assembly.Load`;
  - `Activator.CreateInstance`;
  - `TypeDescriptor` converters and the base `TypeConverter`;
  - reflective `TryParse`;
  - `DefaultConstructorFinder`;
  - `ConstructorInfo.Invoke`;
  - the configuration binder's `Get` and `Bind`.
- `GetOrderedSubsections` is not part of this model. Its result, including
  its ordinal-key error, is an oracle.
  - Because its enumeration is lazy, a malformed `modules` collection
    throws at the first step of the loop. The model raises that error
    before the loop, with the same effect: no module registered.
- The container's own semantics (sharing, disposal, resolution of keyed
  services) are out of scope. Only the builder calls are recorded.
- The registrars are the concrete classes. Overriding their virtual or
  protected members, and the `IComponentRegistrar` and `IModuleRegistrar`
  interfaces, are not modelled.
- The registration builder returned by `RegisterType` is not a separate
  object. Its calls go to the container builder's single call log.
- Case-insensitive comparison folds ASCII letters only. Culture and
  non-ASCII folding are left out.
- `int.TryParse` is modelled for `NumberStyles.Integer` in the invariant
  culture, including the trailing NUL characters .NET's parser ignores.
  Floating-point and culture-dependent parsing are left out.
- `GetParameters` and `GetProperties` are lazy iterators in the source. The
  model produces their parameters eagerly. The argument checks are modelled
  as happening at the call.
- The `ChangeToCompatibleType` overloads that read a `[TypeConverter]`
  attribute from a `ParameterInfo` or `MemberInfo`
  (TypeManipulation.cs:54-89) are represented only by the attribute's
  converter type name.
- ModuleRegistrar.GetMostParametersConstructor: the `FindConstructors`
  oracle is taken to throw NoConstructorsFoundException for a type without
  public constructors, as the module registrar's test expects. The code
  shown would otherwise dereference the null constructor that
  `FirstOrDefault` returns.
- `ConfigurationBinder.Bind` onto a null instance and `RegisterModule`
  of a null module are foreign code. The model gives them their library
  behaviour: binding a null instance does nothing, and `RegisterModule(null)`
  is an ArgumentNullException naming `module`.
- `WithMetadata` with a null key is recorded as given. Autofac's own
  argument check on it is foreign code.
- `ConfigurationModule.cs` is not part of this model: it is the Autofac
  module wrapper that calls the registrar.
- Modelling devices, not source operations:
  - the step dispatch (`ComponentStep`, `ComponentStepCalls`);
  - the `Configure*` methods, which split the eight configuration calls
    of one component into pairs so that each proof stays small;
  - the generic loops (`RecordEach`, `AddServiceCalls`, `Fold`).
