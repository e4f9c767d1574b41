/**
 * Converting configured values (strings, configured lists and configured
 * dictionaries) to the type a constructor parameter or property expects.
 * ChangeToCompatibleType tries, in order: the null value, a value already of
 * the destination type, the converter named by a [TypeConverter] attribute,
 * the value's own converter, the destination's converter and a static
 * TryParse; the first that answers decides the outcome.
 *
 * The converters of ConfiguredListParameter and ConfiguredDictionaryParameter
 * convert their elements through ChangeToCompatibleType again, so their
 * ConvertTo behaviour is specified here, in the same recursion.
 */
module TypeManipulation {
  import opened Wrappers
  import opened Text
  import opened Runtime
  import ConfiguredListParameter
  import ConfiguredDictionaryParameter

  /** Configured collections rank above the strings they hold. */
  function Rank(v: Obj): nat {
    if v.ConfiguredList? || v.ConfiguredDictionary? then 1 else 0
  }

  /**
   * GetTypeConverterFromName: loads the named type (a TypeLoadException when
   * it does not exist) and instantiates it; an instance that is not a
   * TypeConverter is an InvalidOperationException naming the type.
   */
  function GetTypeConverterFromName(rt: Runtime, converterTypeName: string): (r: Result<Converter, Error>)
    ensures rt.getType(converterTypeName).None? ==> r == Failure(TypeLoad(converterTypeName))
    ensures rt.getType(converterTypeName).Some? && rt.createConverter(rt.getType(converterTypeName).value).None?
      ==> r == Failure(InvalidOperation(TypeConverterAttributeTypeNotConverter(converterTypeName)))
    ensures r.Success? <==>
      rt.getType(converterTypeName).Some? && rt.createConverter(rt.getType(converterTypeName).value).Some?
  {
    match rt.getType(converterTypeName)
    case None => Failure(TypeLoad(converterTypeName))
    case Some(converterType) =>
      match rt.createConverter(converterType)
      case None => Failure(InvalidOperation(TypeConverterAttributeTypeNotConverter(converterTypeName)))
      case Some(converter) => Success(converter)
  }

  /** The attribute names a converter: a ConverterTypeName that is neither null nor empty. */
  predicate HasConverterAttribute(converterTypeName: Option<string>) {
    !IsNullOrEmpty(converterTypeName)
  }

  /** TypeDescriptor.GetConverter(value.GetType()).CanConvertTo(destinationType):
      the configured collections carry their own converters. */
  function SourceCanConvertTo(rt: Runtime, value: Obj, destinationType: TypeRef): bool
    requires !value.Null?
  {
    match value
    case ConfiguredList(_) => ConfiguredListParameter.CanConvertTo(rt, destinationType)
    case ConfiguredDictionary(_) => ConfiguredDictionaryParameter.CanConvertTo(rt, destinationType)
    case _ => rt.getConverter(TypeOf(value)).canConvertTo(destinationType)
  }

  /** TypeDescriptor.GetConverter(destinationType).CanConvertFrom(value.GetType()) */
  predicate DestinationCanConvertFrom(rt: Runtime, value: Obj, destinationType: TypeRef)
    requires !value.Null?
  {
    rt.getConverter(destinationType).canConvertFrom(TypeOf(value))
  }

  /** The value TryParse produces: only for strings, only when the destination
      has a public static TryParse, and only when it returns true. */
  function TryParse(rt: Runtime, value: Obj, destinationType: TypeRef): (r: Option<Obj>)
    ensures r.Some? ==> value.Str? && rt.tryParse(destinationType).Some?
  {
    if value.Str? && rt.tryParse(destinationType).Some? then rt.tryParse(destinationType).value(value.s)
    else None
  }

  /** The error when no step applies. */
  function Unsupported(value: Obj, destinationType: TypeRef): Error
    requires !value.Null?
  {
    InvalidOperation(TypeConversionUnsupported(TypeOf(value), destinationType))
  }

  /**
   * ChangeToCompatibleType(value, destinationType, converterAttribute):
   * `converterTypeName` is the attribute's ConverterTypeName, None when there
   * is no attribute.
   */
  function ChangeToCompatibleType(rt: Runtime, value: Obj, destinationType: Option<TypeRef>,
                                  converterTypeName: Option<string>): (r: Result<Obj, Error>)
    ensures destinationType.None? ==> r == Failure(ArgumentNull("destinationType"))
    ensures destinationType.Some? && value.Null? && rt.isValueType(destinationType.value)
      ==> r == Success(rt.createDefault(destinationType.value))
    ensures destinationType.Some? && value.Null? && !rt.isValueType(destinationType.value) ==> r == Success(Null)
    ensures destinationType.Some? && !value.Null? && rt.isInstanceOfType(destinationType.value, value)
      ==> r == Success(value)
    decreases Rank(value), 5, 0
  {
    if destinationType.None? then Failure(ArgumentNull("destinationType"))
    else
      var dest := destinationType.value;
      if value.Null? then Success(if rt.isValueType(dest) then rt.createDefault(dest) else Null)
      else if rt.isInstanceOfType(dest, value) then Success(value)
      else if HasConverterAttribute(converterTypeName)
        && (GetTypeConverterFromName(rt, converterTypeName.value).Failure?
            || GetTypeConverterFromName(rt, converterTypeName.value).value.canConvertFrom(TypeOf(value)))
      then
        match GetTypeConverterFromName(rt, converterTypeName.value)
        case Failure(e) => Failure(e)
        case Success(converter) => converter.convertFrom(value)
      else if SourceCanConvertTo(rt, value, dest) then SourceConvertTo(rt, value, dest)
      else if DestinationCanConvertFrom(rt, value, dest) then rt.getConverter(dest).convertFrom(value)
      else if TryParse(rt, value, dest).Some? then Success(TryParse(rt, value, dest).value)
      else Failure(Unsupported(value, dest))
  }

  /** TypeDescriptor.GetConverter(value.GetType()).ConvertTo(value, destinationType) */
  function SourceConvertTo(rt: Runtime, value: Obj, destinationType: TypeRef): (r: Result<Obj, Error>)
    requires !value.Null?
    ensures value.ConfiguredList? && ConfiguredListParameter.GetInstantiableType(rt, destinationType).Some? && r.Success?
      ==> r.value.ListInstance? && TypeOf(r.value) == ConfiguredListParameter.GetInstantiableType(rt, destinationType).value
    ensures value.ConfiguredDictionary? && ConfiguredDictionaryParameter.GetInstantiableType(rt, destinationType).Some? && r.Success?
      ==> r.value.DictionaryInstance? && TypeOf(r.value) == ConfiguredDictionaryParameter.GetInstantiableType(rt, destinationType).value
    ensures !value.ConfiguredList? && !value.ConfiguredDictionary?
      ==> r == rt.getConverter(TypeOf(value)).convertTo(value, destinationType)
    decreases Rank(value), 4, 0
  {
    if value.ConfiguredList? then ListConvertTo(rt, value, destinationType)
    else if value.ConfiguredDictionary? then DictionaryConvertTo(rt, value, destinationType)
    else rt.getConverter(TypeOf(value)).convertTo(value, destinationType)
  }

  // ----- ConfiguredListParameter's converter -----

  /** One configured list item converted to the element type, without an attribute. */
  function ConvertItem(rt: Runtime, item: Option<string>, elementType: TypeRef): (r: Result<Obj, Error>)
    ensures item.None? ==> r == Success(if rt.isValueType(elementType) then rt.createDefault(elementType) else Null)
    ensures item.Some? && rt.isInstanceOfType(elementType, Str(item.value)) ==> r == Success(Str(item.value))
    decreases 0, 6, 0
  {
    ChangeToCompatibleType(rt, StringObj(item), Some(elementType), None)
  }

  /**
   * The items converted one after another, as the foreach loop adds them:
   * on success one element per item, in order; otherwise the error of the
   * first item that fails.
   */
  function ConvertItems(rt: Runtime, items: seq<Option<string>>, elementType: TypeRef): (r: Result<seq<Obj>, Error>)
    ensures r.Success? ==>
      && |r.value| == |items|
      && forall i :: 0 <= i < |items| ==> ConvertItem(rt, items[i], elementType) == Success(r.value[i])
    decreases 1, 2, |items|
  {
    if items == [] then Success([])
    else
      var n := |items| - 1;
      match ConvertItems(rt, items[..n], elementType)
      case Failure(e) => Failure(e)
      case Success(done) =>
        match ConvertItem(rt, items[n], elementType)
        case Failure(e) => Failure(e)
        case Success(x) => Success(done + [x])
  }

  /**
   * ListTypeConverter.ConvertTo: a configured list and an instantiable
   * destination give a new List<T> holding every item converted to T;
   * anything else goes to the base TypeConverter.
   */
  function ListConvertTo(rt: Runtime, value: Obj, destinationType: TypeRef): (r: Result<Obj, Error>)
    ensures value.ConfiguredList? && ConfiguredListParameter.GetInstantiableType(rt, destinationType).Some? && r.Success?
      ==> && r.value.ListInstance?
          && TypeOf(r.value) == ConfiguredListParameter.GetInstantiableType(rt, destinationType).value
          && |r.value.elements| == |value.items|
    decreases Rank(value), 3, 0
  {
    match ConfiguredListParameter.GetInstantiableType(rt, destinationType)
    case Some(listType) =>
      if value.ConfiguredList? then
        var elementType := listType.args[0];
        match ConvertItems(rt, value.items, elementType)
        case Failure(e) => Failure(e)
        case Success(elements) => Success(ListInstance(elementType, elements))
      else rt.baseConverter.convertTo(value, destinationType)
    case None => rt.baseConverter.convertTo(value, destinationType)
  }

  // ----- ConfiguredDictionaryParameter's converter -----

  /** The keys of a dictionary built so far. */
  function Keys(pairs: seq<(Obj, Obj)>): (r: seq<Obj>)
    ensures |r| == |pairs| && forall i :: 0 <= i < |pairs| ==> r[i] == pairs[i].0
  {
    if pairs == [] then [] else Keys(pairs[..|pairs| - 1]) + [pairs[|pairs| - 1].0]
  }

  /** The entry's key converted to the key type. */
  function ConvertKey(rt: Runtime, entry: (string, Option<string>), keyType: TypeRef): (r: Result<Obj, Error>)
    ensures rt.isInstanceOfType(keyType, Str(entry.0)) ==> r == Success(Str(entry.0))
    decreases 0, 6, 0
  {
    ChangeToCompatibleType(rt, Str(entry.0), Some(keyType), None)
  }

  /** The entry's value converted to the value type. */
  function ConvertValue(rt: Runtime, entry: (string, Option<string>), valueType: TypeRef): (r: Result<Obj, Error>)
    ensures entry.1.None? ==> r == Success(if rt.isValueType(valueType) then rt.createDefault(valueType) else Null)
    ensures entry.1.Some? && rt.isInstanceOfType(valueType, Str(entry.1.value)) ==> r == Success(Str(entry.1.value))
    decreases 0, 6, 0
  {
    ChangeToCompatibleType(rt, StringObj(entry.1), Some(valueType), None)
  }

  /** Both halves of the entry convert, its key is not empty and not converted to null. */
  predicate EntryConverts(rt: Runtime, entry: (string, Option<string>), keyType: TypeRef, valueType: TypeRef)
    decreases 1, 0, 0
  {
    && entry.0 != ""
    && ConvertKey(rt, entry, keyType).Success?
    && ConvertValue(rt, entry, valueType).Success?
    && !ConvertKey(rt, entry, keyType).value.Null?
  }

  /**
   * One loop step: an empty key is a FormatException; otherwise the key and
   * then the value are converted and IDictionary.Add rejects a null or an
   * already present key.
   */
  function AddEntry(rt: Runtime, pairs: seq<(Obj, Obj)>, entry: (string, Option<string>),
                    keyType: TypeRef, valueType: TypeRef): (r: Result<seq<(Obj, Obj)>, Error>)
    ensures r.Success? <==> EntryConverts(rt, entry, keyType, valueType) && ConvertKey(rt, entry, keyType).value !in Keys(pairs)
    ensures r.Success? ==>
      r.value == pairs + [(ConvertKey(rt, entry, keyType).value, ConvertValue(rt, entry, valueType).value)]
    ensures entry.0 == "" ==> r == Failure(DictionaryKeyMayNotBeNullOrEmpty)
    decreases 1, 1, 0
  {
    if entry.0 == "" then Failure(DictionaryKeyMayNotBeNullOrEmpty)
    else
      match ConvertKey(rt, entry, keyType)
      case Failure(e) => Failure(e)
      case Success(key) =>
        match ConvertValue(rt, entry, valueType)
        case Failure(e) => Failure(e)
        case Success(v) =>
          if key.Null? then Failure(ArgumentNull("key"))
          else if key in Keys(pairs) then Failure(DuplicateKey(key))
          else Success(pairs + [(key, v)])
  }

  /** The entries added one after another, as the foreach loop adds them. */
  function AddEntries(rt: Runtime, entries: seq<(string, Option<string>)>, keyType: TypeRef, valueType: TypeRef)
    : (r: Result<seq<(Obj, Obj)>, Error>)
    ensures r.Success? ==>
      && |r.value| == |entries|
      && (forall i :: 0 <= i < |entries| ==>
            && EntryConverts(rt, entries[i], keyType, valueType)
            && r.value[i] == (ConvertKey(rt, entries[i], keyType).value, ConvertValue(rt, entries[i], valueType).value))
      && (forall i, j :: 0 <= i < j < |entries| ==> r.value[i].0 != r.value[j].0)
    decreases 1, 2, |entries|
  {
    if entries == [] then Success([])
    else
      var n := |entries| - 1;
      match AddEntries(rt, entries[..n], keyType, valueType)
      case Failure(e) => Failure(e)
      case Success(pairs) => AddEntry(rt, pairs, entries[n], keyType, valueType)
  }

  /**
   * DictionaryTypeConverter.ConvertTo: a configured dictionary and an
   * instantiable destination give a new Dictionary<K, V> with every entry
   * converted and added (empty when the configured dictionary is null);
   * anything else goes to the base TypeConverter.
   */
  function DictionaryConvertTo(rt: Runtime, value: Obj, destinationType: TypeRef): (r: Result<Obj, Error>)
    ensures value.ConfiguredDictionary? && ConfiguredDictionaryParameter.GetInstantiableType(rt, destinationType).Some? && r.Success?
      ==> && r.value.DictionaryInstance?
          && TypeOf(r.value) == ConfiguredDictionaryParameter.GetInstantiableType(rt, destinationType).value
          && |r.value.pairs| == (if value.entries.None? then 0 else |value.entries.value|)
    decreases Rank(value), 3, 0
  {
    match ConfiguredDictionaryParameter.GetInstantiableType(rt, destinationType)
    case Some(dictType) =>
      if value.ConfiguredDictionary? then
        var keyType := dictType.args[0];
        var valueType := dictType.args[1];
        match value.entries
        case None => Success(DictionaryInstance(keyType, valueType, []))
        case Some(entries) =>
          match AddEntries(rt, entries, keyType, valueType)
          case Failure(e) => Failure(e)
          case Success(pairs) => Success(DictionaryInstance(keyType, valueType, pairs))
      else rt.baseConverter.convertTo(value, destinationType)
    case None => rt.baseConverter.convertTo(value, destinationType)
  }

  // ----- The priority chain as a first-answer search -----

  /** What the attribute's converter does: None when there is no attribute or
      its converter cannot convert from the value's type. */
  function AttributeOutcome(rt: Runtime, value: Obj, converterTypeName: Option<string>): (r: Option<Result<Obj, Error>>)
    requires !value.Null?
    ensures r.Some? ==> HasConverterAttribute(converterTypeName)
    ensures HasConverterAttribute(converterTypeName) && GetTypeConverterFromName(rt, converterTypeName.value).Failure?
      ==> r == Some(Failure(GetTypeConverterFromName(rt, converterTypeName.value).error))
    ensures r.None? <==>
      || !HasConverterAttribute(converterTypeName)
      || (&& GetTypeConverterFromName(rt, converterTypeName.value).Success?
          && !GetTypeConverterFromName(rt, converterTypeName.value).value.canConvertFrom(TypeOf(value)))
  {
    if !HasConverterAttribute(converterTypeName) then None
    else
      match GetTypeConverterFromName(rt, converterTypeName.value)
      case Failure(e) => Some(Failure(e))
      case Success(converter) =>
        if converter.canConvertFrom(TypeOf(value)) then Some(converter.convertFrom(value)) else None
  }

  /** The answers of the four converter steps, in the order they are tried;
      None where a step does not apply. */
  function Outcomes(rt: Runtime, value: Obj, destinationType: TypeRef, converterTypeName: Option<string>)
    : (r: seq<Option<Result<Obj, Error>>>)
    requires !value.Null?
    ensures |r| == 4
  {
    [ AttributeOutcome(rt, value, converterTypeName),
      if SourceCanConvertTo(rt, value, destinationType) then Some(SourceConvertTo(rt, value, destinationType)) else None,
      if DestinationCanConvertFrom(rt, value, destinationType)
      then Some(rt.getConverter(destinationType).convertFrom(value)) else None,
      if TryParse(rt, value, destinationType).Some? then Some(Success(TryParse(rt, value, destinationType).value)) else None ]
  }

  /** The answer of the first step that answers, or `fallback` when none does. */
  function FirstAnswer<T>(outcomes: seq<Option<T>>, fallback: T): (r: T)
    ensures forall k :: (0 <= k < |outcomes| && outcomes[k].Some? && (forall j :: 0 <= j < k ==> outcomes[j].None?))
                        ==> r == outcomes[k].value
    ensures (forall k :: 0 <= k < |outcomes| ==> outcomes[k].None?) ==> r == fallback
  {
    if outcomes == [] then fallback
    else if outcomes[0].Some? then outcomes[0].value
    else
      var r := FirstAnswer(outcomes[1..], fallback);
      assert forall k :: 1 <= k < |outcomes| ==> outcomes[k] == outcomes[1..][k - 1];
      r
  }

  /** Once null and already-compatible values are dealt with, the outcome is
      the first converter step's answer, in the order attribute, source type,
      destination type, TryParse, and the unsupported-conversion error when
      none answers. */
  lemma ChangeToCompatibleTypeIsFirstAnswer(rt: Runtime, value: Obj, destinationType: TypeRef,
                                            converterTypeName: Option<string>)
    requires !value.Null? && !rt.isInstanceOfType(destinationType, value)
    ensures ChangeToCompatibleType(rt, value, Some(destinationType), converterTypeName)
         == FirstAnswer(Outcomes(rt, value, destinationType, converterTypeName), Failure(Unsupported(value, destinationType)))
  {
    var o := Outcomes(rt, value, destinationType, converterTypeName);
    if o[0].Some? {
    } else if o[1].Some? {
    } else if o[2].Some? {
    } else if o[3].Some? {
    } else {
      assert forall k :: 0 <= k < |o| ==> o[k].None?;
    }
  }

  /** An attribute naming a converter that cannot convert from the value's
      type is passed over without error: the outcome is as without the attribute. */
  lemma UnusableAttributeFallsThrough(rt: Runtime, value: Obj, destinationType: TypeRef, converterTypeName: string)
    requires converterTypeName != "" && !value.Null?
    requires GetTypeConverterFromName(rt, converterTypeName).Success?
    requires !GetTypeConverterFromName(rt, converterTypeName).value.canConvertFrom(TypeOf(value))
    ensures ChangeToCompatibleType(rt, value, Some(destinationType), Some(converterTypeName))
         == ChangeToCompatibleType(rt, value, Some(destinationType), None)
  {
  }

  /** An attribute whose type cannot be loaded, or is not a TypeConverter,
      fails the conversion even when a later step could have answered. */
  lemma BrokenAttributeFails(rt: Runtime, value: Obj, destinationType: TypeRef, converterTypeName: string)
    requires converterTypeName != "" && !value.Null? && !rt.isInstanceOfType(destinationType, value)
    requires GetTypeConverterFromName(rt, converterTypeName).Failure?
    ensures ChangeToCompatibleType(rt, value, Some(destinationType), Some(converterTypeName))
         == Failure(GetTypeConverterFromName(rt, converterTypeName).error)
    ensures ChangeToCompatibleType(rt, value, Some(destinationType), Some(converterTypeName)).error.TypeLoad?
         || ChangeToCompatibleType(rt, value, Some(destinationType), Some(converterTypeName)).error
            == InvalidOperation(TypeConverterAttributeTypeNotConverter(converterTypeName))
  {
  }

  /** Whoever answers first wins: when the attribute's converter answers,
      the type converters, the base converter and TryParse are never consulted. */
  lemma AttributeAnswerIgnoresLaterSteps(rt: Runtime, value: Obj, destinationType: TypeRef, converterTypeName: Option<string>,
                                         getConverter: TypeRef -> Converter, baseConverter: Converter,
                                         tryParse: TypeRef -> Option<string -> Option<Obj>>)
    requires !value.Null? && AttributeOutcome(rt, value, converterTypeName).Some?
    ensures
      var other := rt.(getConverter := getConverter, baseConverter := baseConverter, tryParse := tryParse);
      ChangeToCompatibleType(other, value, Some(destinationType), converterTypeName)
        == ChangeToCompatibleType(rt, value, Some(destinationType), converterTypeName)
  {
  }

  /** TryParse is the last resort: for a string that an earlier converter
      step handles, changing the TryParse methods changes nothing. */
  lemma TryParseIsLastResort(rt: Runtime, s: string, destinationType: TypeRef, converterTypeName: Option<string>,
                             tryParse: TypeRef -> Option<string -> Option<Obj>>)
    requires var o := Outcomes(rt, Str(s), destinationType, converterTypeName);
      o[0].Some? || o[1].Some? || o[2].Some?
    ensures ChangeToCompatibleType(rt.(tryParse := tryParse), Str(s), Some(destinationType), converterTypeName)
         == ChangeToCompatibleType(rt, Str(s), Some(destinationType), converterTypeName)
  {
  }

  /** TryParse only applies to strings: any other value that no converter
      handles is an unsupported conversion. */
  lemma NonStringsAreNotParsed(rt: Runtime, value: Obj, destinationType: TypeRef, converterTypeName: Option<string>)
    requires !value.Null? && !value.Str? && !rt.isInstanceOfType(destinationType, value)
    requires AttributeOutcome(rt, value, converterTypeName).None?
    requires !SourceCanConvertTo(rt, value, destinationType) && !DestinationCanConvertFrom(rt, value, destinationType)
    ensures ChangeToCompatibleType(rt, value, Some(destinationType), converterTypeName)
         == Failure(InvalidOperation(TypeConversionUnsupported(TypeOf(value), destinationType)))
  {
  }

  // ----- Properties of the list converter -----

  /** A configured list converted to an instantiable destination keeps its
      length and order, each element being the item converted to T; it fails
      exactly when some item fails, with the first failing item's error. */
  lemma ListConvertToKeepsItems(rt: Runtime, items: seq<Option<string>>, destinationType: TypeRef)
    requires ConfiguredListParameter.GetInstantiableType(rt, destinationType).Some?
    ensures
      var elementType := ConfiguredListParameter.GetInstantiableType(rt, destinationType).value.args[0];
      var r := ListConvertTo(rt, ConfiguredList(items), destinationType);
      && (r.Success? ==>
          && r.value.ListInstance? && r.value.elementType == elementType
          && |r.value.elements| == |items|
          && forall i :: 0 <= i < |items| ==> ConvertItem(rt, items[i], elementType) == Success(r.value.elements[i]))
      && (r.Failure? <==> exists i :: 0 <= i < |items| && ConvertItem(rt, items[i], elementType).Failure?)
      && (r.Failure? ==> exists i ::
            && 0 <= i < |items|
            && ConvertItem(rt, items[i], elementType) == Failure(r.error)
            && (forall j :: 0 <= j < i ==> ConvertItem(rt, items[j], elementType).Success?))
  {
    var elementType := ConfiguredListParameter.GetInstantiableType(rt, destinationType).value.args[0];
    var c := ConvertItems(rt, items, elementType);
    if c.Success? {
      forall i | 0 <= i < |items| ensures ConvertItem(rt, items[i], elementType).Success? {
        assert ConvertItem(rt, items[i], elementType) == Success(c.value[i]);
      }
    } else {
      ConvertItemsFailsAtFirstFailure(rt, items, elementType);
    }
  }

  /** A failed conversion failed at some item, with that item's error, after every earlier item converted. */
  lemma {:induction false} ConvertItemsFailsAtFirstFailure(rt: Runtime, items: seq<Option<string>>, elementType: TypeRef)
    requires ConvertItems(rt, items, elementType).Failure?
    ensures exists i ::
      && 0 <= i < |items|
      && ConvertItem(rt, items[i], elementType) == Failure(ConvertItems(rt, items, elementType).error)
      && (forall j :: 0 <= j < i ==> ConvertItem(rt, items[j], elementType).Success?)
    decreases |items|
  {
    var n := |items| - 1;
    var prefix := items[..n];
    match ConvertItems(rt, prefix, elementType)
    case Failure(e) =>
      ConvertItemsFailsAtFirstFailure(rt, prefix, elementType);
      var i :| 0 <= i < |prefix|
        && ConvertItem(rt, prefix[i], elementType) == Failure(e)
        && forall j :: 0 <= j < i ==> ConvertItem(rt, prefix[j], elementType).Success?;
      assert forall j :: 0 <= j <= i ==> prefix[j] == items[j];
    case Success(done) =>
      assert forall j :: 0 <= j < n ==> prefix[j] == items[j];
      assert forall j :: 0 <= j < n ==> ConvertItem(rt, prefix[j], elementType) == Success(done[j]);
  }

  /** A non-generic destination takes List<object>; when strings are objects
      and object is a reference type, the items are kept unconverted (a null
      item stays null). */
  lemma ObjectListKeepsStrings(rt: Runtime, items: seq<Option<string>>, destinationType: TypeRef)
    requires !destinationType.Constructed?
    requires ConfiguredListParameter.GetInstantiableType(rt, destinationType).Some?
    requires !rt.isValueType(ObjectType)
    requires forall s :: rt.isInstanceOfType(ObjectType, Str(s))
    ensures ListConvertTo(rt, ConfiguredList(items), destinationType)
         == Success(ListInstance(ObjectType, seq(|items|, i requires 0 <= i < |items| => StringObj(items[i]))))
  {
    var kept := seq(|items|, i requires 0 <= i < |items| => StringObj(items[i]));
    forall i | 0 <= i < |items| ensures ConvertItem(rt, items[i], ObjectType) == Success(kept[i]) {
      if items[i].Some? {
        assert rt.isInstanceOfType(ObjectType, Str(items[i].value));
      }
    }
    ListConvertToKeepsItems(rt, items, destinationType);
    var r := ListConvertTo(rt, ConfiguredList(items), destinationType);
    assert r.Success?;
    assert r.value.elements == kept;
  }

  /** Anything but a configured list, or a destination with no instantiable
      type, is left to the base TypeConverter. */
  lemma ListConvertToDefersToBase(rt: Runtime, value: Obj, destinationType: TypeRef)
    requires !value.ConfiguredList? || ConfiguredListParameter.GetInstantiableType(rt, destinationType).None?
    ensures ListConvertTo(rt, value, destinationType) == rt.baseConverter.convertTo(value, destinationType)
  {
  }

  // ----- Properties of the dictionary converter -----

  /** When every entry converts and the converted keys are distinct, the
      dictionary holds one pair per entry, in entry order. */
  lemma {:induction false} AddEntriesOfDistinctKeys(rt: Runtime, entries: seq<(string, Option<string>)>,
                                                    keyType: TypeRef, valueType: TypeRef)
    requires forall i :: 0 <= i < |entries| ==> EntryConverts(rt, entries[i], keyType, valueType)
    requires forall i, j :: 0 <= i < j < |entries| ==>
      ConvertKey(rt, entries[i], keyType) != ConvertKey(rt, entries[j], keyType)
    ensures AddEntries(rt, entries, keyType, valueType).Success?
    ensures |AddEntries(rt, entries, keyType, valueType).value| == |entries|
  {
    if entries != [] {
      var n := |entries| - 1;
      AddEntriesOfDistinctKeys(rt, entries[..n], keyType, valueType);
    }
  }

  /** Add, not an indexer: two entries whose keys convert to the same key make
      the conversion fail instead of the later one overwriting the earlier. */
  lemma KeyCollisionFails(rt: Runtime, entries: seq<(string, Option<string>)>, keyType: TypeRef, valueType: TypeRef,
                          i: nat, j: nat)
    requires i < j < |entries|
    requires ConvertKey(rt, entries[i], keyType) == ConvertKey(rt, entries[j], keyType)
    ensures AddEntries(rt, entries, keyType, valueType).Failure?
  {
  }

  /** An entry with an empty key makes the conversion fail. */
  lemma EmptyKeyFails(rt: Runtime, entries: seq<(string, Option<string>)>, keyType: TypeRef, valueType: TypeRef, i: nat)
    requires i < |entries| && entries[i].0 == ""
    ensures AddEntries(rt, entries, keyType, valueType).Failure?
  {
  }

  /** A null configured dictionary gives an empty dictionary, not an error. */
  lemma NullDictionaryIsEmpty(rt: Runtime, destinationType: TypeRef)
    requires ConfiguredDictionaryParameter.GetInstantiableType(rt, destinationType).Some?
    ensures
      var t := ConfiguredDictionaryParameter.GetInstantiableType(rt, destinationType).value;
      DictionaryConvertTo(rt, ConfiguredDictionary(None), destinationType)
        == Success(DictionaryInstance(t.args[0], t.args[1], []))
  {
  }

  /** Anything but a configured dictionary, or a destination with no
      instantiable type, is left to the base TypeConverter. */
  lemma DictionaryConvertToDefersToBase(rt: Runtime, value: Obj, destinationType: TypeRef)
    requires !value.ConfiguredDictionary? || ConfiguredDictionaryParameter.GetInstantiableType(rt, destinationType).None?
    ensures DictionaryConvertTo(rt, value, destinationType) == rt.baseConverter.convertTo(value, destinationType)
  {
  }

  /** A failed item fails the whole list with its error, whatever follows it. */
  lemma {:induction false} ConvertItemsFailurePersists(rt: Runtime, items: seq<Option<string>>, elementType: TypeRef, k: nat)
    requires k <= |items| && ConvertItems(rt, items[..k], elementType).Failure?
    ensures ConvertItems(rt, items, elementType) == ConvertItems(rt, items[..k], elementType)
    decreases |items|
  {
    if k < |items| {
      var n := |items| - 1;
      assert items[..n][..k] == items[..k];
      ConvertItemsFailurePersists(rt, items[..n], elementType, k);
      assert ConvertItems(rt, items[..n], elementType).Failure?;
    } else {
      assert items[..k] == items;
    }
  }

  /** A failed entry fails the whole dictionary with its error, whatever follows it. */
  lemma {:induction false} AddEntriesFailurePersists(rt: Runtime, entries: seq<(string, Option<string>)>,
                                                     keyType: TypeRef, valueType: TypeRef, k: nat)
    requires k <= |entries| && AddEntries(rt, entries[..k], keyType, valueType).Failure?
    ensures AddEntries(rt, entries, keyType, valueType) == AddEntries(rt, entries[..k], keyType, valueType)
    decreases |entries|
  {
    if k < |entries| {
      var n := |entries| - 1;
      assert entries[..n][..k] == entries[..k];
      AddEntriesFailurePersists(rt, entries[..n], keyType, valueType, k);
    } else {
      assert entries[..k] == entries;
    }
  }
}
