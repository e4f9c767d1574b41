/**
 * Reading registration settings out of configuration: key names, the
 * classification of a parameter or property section as a scalar, a list or
 * a dictionary, the resolved parameters built from `parameters` and
 * `properties` sections, type lookup and default-assembly loading.
 */
module ConfigurationExtensions {
  import opened Wrappers
  import opened Text
  import opened Configuration
  import opened Runtime
  import opened TypeManipulation
  import opened ReflectionExtensions

  // ----- GetKeyName -----

  /** GetKeyName: the last colon-delimited segment of a full key. */
  function GetKeyName(fullKey: string): (r: string)
    ensures ':' !in r
    ensures |r| <= |fullKey| && r == fullKey[|fullKey| - |r|..]
    ensures ':' !in fullKey ==> r == fullKey
    ensures |r| < |fullKey| ==> fullKey[|fullKey| - |r| - 1] == ':'
  {
    var index := LastIndexOf(fullKey, ':');
    if index < 0 then fullKey else fullKey[index + 1..]
  }

  lemma GetKeyNameExamples()
    ensures GetKeyName("configuration:full:key") == "key"
    ensures GetKeyName("key") == "key"
    ensures GetKeyName("trailing:") == ""
  {
    assert ':' !in "key";
  }

  // ----- GetConfiguredParameterValue -----

  /** The children as (key name, value) pairs, in enumeration order. */
  function SubKeys(section: Section): (r: seq<(string, Option<string>)>)
    ensures |r| == |section.children|
    ensures forall i :: 0 <= i < |r| ==> r[i] == (GetKeyName(section.children[i].key), section.children[i].value)
  {
    seq(|section.children|, i requires 0 <= i < |section.children| =>
      (GetKeyName(section.children[i].key), section.children[i].value))
  }

  /** The keys are the integers 0, 1, ..., n-1 in enumeration order. */
  predicate IsSequential(subKeys: seq<(string, Option<string>)>) {
    forall i :: 0 <= i < |subKeys| ==> ParseInt32(subKeys[i].0) == Some(i)
  }

  /** The values in enumeration order. */
  function Values(subKeys: seq<(string, Option<string>)>): (r: seq<Option<string>>)
    ensures |r| == |subKeys| && forall i :: 0 <= i < |subKeys| ==> r[i] == subKeys[i].1
  {
    seq(|subKeys|, i requires 0 <= i < |subKeys| => subKeys[i].1)
  }

  /** No key occurs twice. */
  predicate DistinctKeys(dict: seq<(string, Option<string>)>) {
    forall i, j :: 0 <= i < j < |dict| ==> dict[i].0 != dict[j].0
  }

  /** dict[key]: the value stored under `key`, if any. */
  function Lookup(dict: seq<(string, Option<string>)>, key: string): Option<Option<string>> {
    if dict == [] then None
    else if dict[0].0 == key then Some(dict[0].1)
    else Lookup(dict[1..], key)
  }

  /** A key is found exactly when some entry has it. */
  lemma {:induction false} LookupFindsPresentKeys(dict: seq<(string, Option<string>)>, key: string)
    ensures Lookup(dict, key).Some? <==> exists i :: 0 <= i < |dict| && dict[i].0 == key
  {
    if dict != [] && dict[0].0 != key {
      LookupFindsPresentKeys(dict[1..], key);
      if exists i :: 0 <= i < |dict| && dict[i].0 == key {
        var i :| 0 <= i < |dict| && dict[i].0 == key;
        assert dict[1..][i - 1].0 == key;
      }
    }
  }

  /**
   * dict[key] = value on a Dictionary<string, string> (ordinal keys): an
   * existing key keeps its place and takes the new value, a new key goes last.
   */
  function Assign(dict: seq<(string, Option<string>)>, key: string, value: Option<string>)
    : (r: seq<(string, Option<string>)>)
    ensures Lookup(r, key) == Some(value)
    ensures |r| == |dict| || (|r| == |dict| + 1 && r[|dict|] == (key, value))
  {
    if dict == [] then [(key, value)]
    else if dict[0].0 == key then [(key, value)] + dict[1..]
    else [dict[0]] + Assign(dict[1..], key, value)
  }

  /** Assigning a key changes the lookup of that key only. */
  lemma {:induction false} AssignChangesOnlyItsKey(dict: seq<(string, Option<string>)>, key: string, value: Option<string>, k: string)
    ensures Lookup(Assign(dict, key, value), k) == if k == key then Some(value) else Lookup(dict, k)
  {
    if dict != [] && dict[0].0 != key {
      AssignChangesOnlyItsKey(dict[1..], key, value, k);
    }
  }

  /** Assigning keeps the keys distinct. */
  lemma {:induction false} AssignKeepsKeysDistinct(dict: seq<(string, Option<string>)>, key: string, value: Option<string>)
    requires DistinctKeys(dict)
    ensures DistinctKeys(Assign(dict, key, value))
  {
    if dict != [] {
      var r := Assign(dict, key, value);
      var rest := dict[1..];
      if dict[0].0 == key {
        assert r == [(key, value)] + rest;
        assert forall i :: 1 <= i < |r| ==> r[i] == dict[i];
      } else {
        AssignKeepsKeysDistinct(rest, key, value);
        var tail := Assign(rest, key, value);
        assert r == [dict[0]] + tail;
        LookupFindsPresentKeys(rest, dict[0].0);
        AssignChangesOnlyItsKey(rest, key, value, dict[0].0);
        LookupFindsPresentKeys(tail, dict[0].0);
        assert forall i :: 1 <= i < |r| ==> r[i] == tail[i - 1];
      }
    }
  }

  /** The dictionary loop: every pair assigned in turn. */
  function AssignAll(subKeys: seq<(string, Option<string>)>): seq<(string, Option<string>)> {
    if subKeys == [] then []
    else
      var n := |subKeys| - 1;
      Assign(AssignAll(subKeys[..n]), subKeys[n].0, subKeys[n].1)
  }

  /** The pairs assigned in turn never hold a key twice. */
  lemma {:induction false} AssignAllKeysDistinct(subKeys: seq<(string, Option<string>)>)
    ensures DistinctKeys(AssignAll(subKeys))
  {
    if subKeys != [] {
      var n := |subKeys| - 1;
      AssignAllKeysDistinct(subKeys[..n]);
      AssignKeepsKeysDistinct(AssignAll(subKeys[..n]), subKeys[n].0, subKeys[n].1);
    }
  }

  /** The decision on the (key name, value) pairs of the children. */
  function Classify(subKeys: seq<(string, Option<string>)>, ownValue: Option<string>): (r: Obj)
    ensures subKeys == [] ==> r == StringObj(ownValue)
  {
    if |subKeys| == 0 then StringObj(ownValue)
    else if IsSequential(subKeys) then ConfiguredList(Values(subKeys))
    else ConfiguredDictionary(Some(AssignAll(subKeys)))
  }

  /**
   * GetConfiguredParameterValue's decision: no children is the section's own
   * (possibly null) value; children keyed 0, 1, ..., n-1 are a list of their
   * values; any other children are a dictionary from key name to value.
   */
  function ParameterValue(section: Section): (r: Obj)
    ensures section.children == [] ==> r == StringObj(section.value)
  {
    Classify(SubKeys(section), section.value)
  }

  /** The keys parsed with int.Parse, in order. */
  function ParsedKeys(subKeys: seq<(string, Option<string>)>): (r: seq<int>)
    requires forall k :: 0 <= k < |subKeys| ==> ParseInt32(subKeys[k].0).Some?
    ensures |r| == |subKeys| && forall k :: 0 <= k < |subKeys| ==> ParseInt32(subKeys[k].0) == Some(r[k])
  {
    seq(|subKeys|, k requires 0 <= k < |subKeys| => ParseInt32(subKeys[k].0).value)
  }

  /** The walk over the parsed keys: counts up from 0 and stops at the first
      key that differs from the count. */
  method WalkOrdinalKeys(parsed: seq<int>) returns (isList: bool)
    ensures isList <==> forall k :: 0 <= k < |parsed| ==> parsed[k] == k
  {
    var i := 0;
    isList := true;
    while i < |parsed|
      invariant 0 <= i <= |parsed|
      invariant forall k :: 0 <= k < i ==> parsed[k] == k
    {
      if parsed[i] != i {
        isList := false;
        break;
      }
      i := i + 1;
    }
  }

  /** The list loop: every value added in order. */
  method CollectValues(subKeys: seq<(string, Option<string>)>) returns (list: seq<Option<string>>)
    ensures list == Values(subKeys)
  {
    list := [];
    var k := 0;
    while k < |subKeys|
      invariant 0 <= k <= |subKeys|
      invariant list == Values(subKeys)[..k]
    {
      list := list + [subKeys[k].1];
      k := k + 1;
    }
  }

  /** The dictionary loop: every pair assigned with the indexer, in order. */
  method FillDictionary(subKeys: seq<(string, Option<string>)>) returns (dict: seq<(string, Option<string>)>)
    ensures dict == AssignAll(subKeys)
  {
    dict := [];
    var k := 0;
    while k < |subKeys|
      invariant 0 <= k <= |subKeys|
      invariant dict == AssignAll(subKeys[..k])
    {
      assert subKeys[..k + 1][..k] == subKeys[..k];
      dict := Assign(dict, subKeys[k].0, subKeys[k].1);
      k := k + 1;
    }
    assert subKeys[..k] == subKeys;
  }

  /**
   * GetConfiguredParameterValue: no children is a scalar; when every key
   * parses as an int and the walk finds 0, 1, ..., n-1 the values fill a
   * list; otherwise the pairs fill a dictionary.
   */
  method GetConfiguredParameterValue(value: Section) returns (r: Obj)
    ensures r == ParameterValue(value)
  {
    var subKeys := SubKeys(value);
    r := ClassifySubKeys(subKeys, value.value);
  }

  /** The body of GetConfiguredParameterValue once the children are read. */
  method ClassifySubKeys(subKeys: seq<(string, Option<string>)>, ownValue: Option<string>) returns (r: Obj)
    ensures r == Classify(subKeys, ownValue)
  {
    if |subKeys| == 0 {
      return StringObj(ownValue);
    }
    if forall k :: 0 <= k < |subKeys| ==> ParseInt32(subKeys[k].0).Some? {
      var parsed := ParsedKeys(subKeys);
      var isList := WalkOrdinalKeys(parsed);
      assert isList == IsSequential(subKeys);
      if isList {
        var list := CollectValues(subKeys);
        return ConfiguredList(list);
      }
    } else {
      assert !IsSequential(subKeys);
    }
    var dict := FillDictionary(subKeys);
    return ConfiguredDictionary(Some(dict));
  }

  // ----- What the classification means -----

  /** Assigning one pair changes the lookup of its key only. */
  lemma AssignAllStep(subKeys: seq<(string, Option<string>)>, key: string)
    requires subKeys != []
    ensures
      var n := |subKeys| - 1;
      Lookup(AssignAll(subKeys), key)
        == if subKeys[n].0 == key then Some(subKeys[n].1) else Lookup(AssignAll(subKeys[..n]), key)
  {
    var n := |subKeys| - 1;
    AssignChangesOnlyItsKey(AssignAll(subKeys[..n]), subKeys[n].0, subKeys[n].1, key);
  }

  /** The pairs assigned in turn hold exactly the keys that occur. */
  lemma {:induction false} AssignAllHasEveryKey(subKeys: seq<(string, Option<string>)>, key: string)
    ensures Lookup(AssignAll(subKeys), key).Some? <==> exists i :: 0 <= i < |subKeys| && subKeys[i].0 == key
  {
    if subKeys == [] {
      assert Lookup(AssignAll(subKeys), key) == None;
    } else {
      var n := |subKeys| - 1;
      AssignAllStep(subKeys, key);
      AssignAllHasEveryKey(subKeys[..n], key);
      if subKeys[n].0 != key && exists i :: 0 <= i < |subKeys| && subKeys[i].0 == key {
        var i :| 0 <= i < |subKeys| && subKeys[i].0 == key;
        assert subKeys[..n][i].0 == key;
      }
    }
  }

  /** For each key, the pairs assigned in turn keep the value of its last occurrence. */
  lemma {:induction false} AssignAllIsLastWins(subKeys: seq<(string, Option<string>)>, i: nat)
    requires i < |subKeys|
    requires forall j :: i < j < |subKeys| ==> subKeys[j].0 != subKeys[i].0
    ensures Lookup(AssignAll(subKeys), subKeys[i].0) == Some(subKeys[i].1)
  {
    var n := |subKeys| - 1;
    var key := subKeys[i].0;
    AssignAllStep(subKeys, key);
    if i < n {
      var prefix := subKeys[..n];
      assert prefix[i] == subKeys[i];
      assert subKeys[n].0 != key;
      assert forall j :: i < j < |prefix| ==> prefix[j].0 != key by {
        forall j | i < j < |prefix| ensures prefix[j].0 != key {
          assert prefix[j] == subKeys[j];
        }
      }
      AssignAllIsLastWins(prefix, i);
    }
  }

  /** Reading the key names off the children: they are 0, 1, ..., n-1. */
  predicate HasOrdinalKeys(section: Section) {
    forall i :: 0 <= i < |section.children| ==> ParseInt32(GetKeyName(section.children[i].key)) == Some(i)
  }

  lemma SubKeysAreOrdinal(section: Section)
    ensures IsSequential(SubKeys(section)) <==> HasOrdinalKeys(section)
  {
    var subKeys := SubKeys(section);
    assert forall i :: 0 <= i < |subKeys| ==> subKeys[i].0 == GetKeyName(section.children[i].key);
  }

  /**
   * A section with children is a list exactly when its key names are 0, 1,
   * ..., n-1 in enumeration order; the list then holds the n child values in
   * that order. Otherwise it is a dictionary.
   */
  lemma ParameterValueIsListIffOrdinal(section: Section)
    requires section.children != []
    ensures ParameterValue(section).ConfiguredList? <==> HasOrdinalKeys(section)
    ensures ParameterValue(section).ConfiguredDictionary? <==> !HasOrdinalKeys(section)
    ensures ParameterValue(section).ConfiguredList? ==>
      && |ParameterValue(section).items| == |section.children|
      && forall i :: 0 <= i < |section.children| ==> ParameterValue(section).items[i] == section.children[i].value
  {
    SubKeysAreOrdinal(section);
  }

  /**
   * Children that are not keyed 0, 1, ..., n-1 give a dictionary that holds
   * every key name once, each with the value of the last child of that name:
   * a later child overwrites an earlier one.
   */
  lemma DictionaryIsLastWins(subKeys: seq<(string, Option<string>)>, ownValue: Option<string>, key: string)
    requires subKeys != [] && !IsSequential(subKeys)
    ensures Classify(subKeys, ownValue) == ConfiguredDictionary(Some(AssignAll(subKeys)))
    ensures DistinctKeys(AssignAll(subKeys))
    ensures Lookup(AssignAll(subKeys), key).Some? <==> exists i :: 0 <= i < |subKeys| && subKeys[i].0 == key
    ensures forall i :: 0 <= i < |subKeys| && subKeys[i].0 == key && (forall j :: i < j < |subKeys| ==> subKeys[j].0 != key)
                        ==> Lookup(AssignAll(subKeys), key) == Some(subKeys[i].1)
  {
    AssignAllKeysDistinct(subKeys);
    AssignAllHasEveryKey(subKeys, key);
    forall i | 0 <= i < |subKeys| && subKeys[i].0 == key && (forall j :: i < j < |subKeys| ==> subKeys[j].0 != key)
      ensures Lookup(AssignAll(subKeys), key) == Some(subKeys[i].1)
    {
      AssignAllIsLastWins(subKeys, i);
    }
  }

  /** Keys written as 0, 1, ..., n-1 give a list of the values in order. */
  lemma OrdinalKeysGiveList(section: Section)
    requires section.children != [] && |section.children| <= Int32Max + 1
    requires forall i :: 0 <= i < |section.children| ==> section.children[i].key == NatToString(i)
    ensures ParameterValue(section) == ConfiguredList(seq(|section.children|, i requires 0 <= i < |section.children| => section.children[i].value))
  {
    forall i | 0 <= i < |section.children|
      ensures ParseInt32(GetKeyName(section.children[i].key)) == Some(i)
    {
      var k := NatToString(i);
      assert ':' !in k by {
        assert forall j :: 0 <= j < |k| ==> IsDigit(k[j]);
      }
      ParseInt32OfNatToString(i);
    }
    ParameterValueIsListIffOrdinal(section);
  }

  /** Assigning three distinct keys in turn keeps all three, in order. */
  lemma AssignAllOfThreeDistinctKeys(k0: string, k1: string, k2: string, a: Option<string>, b: Option<string>,
                                     c: Option<string>)
    requires k0 != k1 && k1 != k2 && k0 != k2
    ensures AssignAll([(k0, a), (k1, b), (k2, c)]) == [(k0, a), (k1, b), (k2, c)]
  {
    var subKeys := [(k0, a), (k1, b), (k2, c)];
    var first := [(k0, a)];
    var second := first + [(k1, b)];
    assert subKeys[..2] == second && second[..1] == first && first[..0] == [];
    assert AssignAll(first) == Assign([], k0, a) == first;
    assert Assign(first, k1, b) == [(k0, a)] + Assign([], k1, b) == second;
    assert AssignAll(second) == second;
    assert Assign([(k1, b)], k2, c) == [(k1, b)] + Assign([], k2, c);
    assert Assign(second, k2, c) == [(k0, a)] + Assign([(k1, b)], k2, c);
  }

  /** Three distinct keys whose second is not the integer 1 (integer keys
      0, 5, 10, say) give a dictionary with all three entries in that order. */
  lemma OutOfSequenceKeysGiveDictionary(k0: string, k1: string, k2: string, a: Option<string>, b: Option<string>,
                                        c: Option<string>, ownValue: Option<string>)
    requires k0 != k1 && k1 != k2 && k0 != k2
    requires ParseInt32(k1) != Some(1)
    ensures Classify([(k0, a), (k1, b), (k2, c)], ownValue) == ConfiguredDictionary(Some([(k0, a), (k1, b), (k2, c)]))
  {
    var subKeys := [(k0, a), (k1, b), (k2, c)];
    assert !IsSequential(subKeys) by {
      assert ParseInt32(subKeys[1].0) != Some(1);
    }
    AssignAllOfThreeDistinctKeys(k0, k1, k2, a, b, c);
  }

  // ----- GetParameters and GetProperties -----

  /** The argument checks shared by GetAssembly, GetParameters and
      GetProperties: a null configuration or key, then a blank key. */
  function CheckArguments(configuration: Option<Section>, key: Option<string>): (r: Option<Error>)
    ensures r.None? <==> configuration.Some? && key.Some? && !IsBlank(key.value)
  {
    if configuration.None? then Some(ArgumentNull("configuration"))
    else if key.None? then Some(ArgumentNull("key"))
    else if IsNullOrWhiteSpace(key) then Some(ArgumentEmpty("key"))
    else None
  }

  /** Which kind of ResolvedParameter a configured child becomes. */
  datatype ParameterKind = ConstructorParameter | PropertySetter

  /** A ResolvedParameter built from one configured child: the key name it
      matches and the configured value it supplies, converted at resolve time. */
  datatype ConfiguredParameter = ConfiguredParameter(kind: ParameterKind, name: string, value: Obj)

  /** One parameter per child of configuration[key], in child order. */
  function ReadParameters(configuration: Section, key: string, kind: ParameterKind): (r: seq<ConfiguredParameter>)
    ensures |r| == |GetSection(configuration, key).children|
    ensures forall i :: 0 <= i < |r| ==>
      var element := GetSection(configuration, key).children[i];
      r[i] == ConfiguredParameter(kind, GetKeyName(element.key), ParameterValue(element))
  {
    var elements := GetSection(configuration, key).children;
    seq(|elements|, i requires 0 <= i < |elements| =>
      ConfiguredParameter(kind, GetKeyName(elements[i].key), ParameterValue(elements[i])))
  }

  /** GetParameters: the argument checks, then one constructor parameter per child. */
  function GetParameters(configuration: Option<Section>, key: Option<string>): (r: Result<seq<ConfiguredParameter>, Error>)
    ensures CheckArguments(configuration, key).Some? ==> r == Failure(CheckArguments(configuration, key).value)
    ensures CheckArguments(configuration, key).None? ==>
      && r.Success?
      && |r.value| == |GetSection(configuration.value, key.value).children|
      && (forall i :: 0 <= i < |r.value| ==> r.value[i].kind == ConstructorParameter)
      && r.value == ReadParameters(configuration.value, key.value, ConstructorParameter)
  {
    match CheckArguments(configuration, key)
    case Some(e) => Failure(e)
    case None => Success(ReadParameters(configuration.value, key.value, ConstructorParameter))
  }

  /** GetProperties: the argument checks, then one property parameter per child. */
  function GetProperties(configuration: Option<Section>, key: Option<string>): (r: Result<seq<ConfiguredParameter>, Error>)
    ensures CheckArguments(configuration, key).Some? ==> r == Failure(CheckArguments(configuration, key).value)
    ensures CheckArguments(configuration, key).None? ==>
      && r.Success?
      && |r.value| == |GetSection(configuration.value, key.value).children|
      && (forall i :: 0 <= i < |r.value| ==> r.value[i].kind == PropertySetter)
      && r.value == ReadParameters(configuration.value, key.value, PropertySetter)
  {
    match CheckArguments(configuration, key)
    case Some(e) => Failure(e)
    case None => Success(ReadParameters(configuration.value, key.value, PropertySetter))
  }

  /**
   * The ResolvedParameter's predicate. A constructor parameter matches by
   * name, ignoring case. A property parameter matches only a property
   * setter's parameter whose property name equals the key name, ignoring
   * case; a setter whose property cannot be found dereferences null.
   */
  function CanSupplyValue(rt: Runtime, p: ConfiguredParameter, pi: ParameterInfo): (r: Result<bool, Error>)
    ensures p.kind == ConstructorParameter ==> r == Success(EqualsIgnoreCase(pi.name, p.name))
    ensures p.kind == PropertySetter ==>
      (r == Success(true) <==>
         IsPropertySetter(pi.member)
         && rt.getProperty(pi.member.declaringType, pi.member.name[4..]).Some?
         && EqualsIgnoreCase(rt.getProperty(pi.member.declaringType, pi.member.name[4..]).value.name, p.name))
    ensures p.kind == PropertySetter && !IsPropertySetter(pi.member) ==> r == Success(false)
    ensures r.Failure? <==>
      p.kind == PropertySetter && IsPropertySetter(pi.member)
      && rt.getProperty(pi.member.declaringType, pi.member.name[4..]).None?
  {
    match p.kind
    case ConstructorParameter => Success(EqualsIgnoreCase(pi.name, p.name))
    case PropertySetter =>
      var (isSetter, prop) := TryGetDeclaringProperty(rt, pi);
      if !isSetter then Success(false)
      else if prop.None? then Failure(NullReference)
      else Success(EqualsIgnoreCase(prop.value.name, p.name))
  }

  /** The ResolvedParameter's value: the configured value converted to the
      parameter's type, using the [TypeConverter] on the constructor parameter
      or on the declaring property. */
  function ValueFor(rt: Runtime, p: ConfiguredParameter, pi: ParameterInfo): (r: Result<Obj, Error>)
    ensures p.kind == ConstructorParameter
      ==> r == ChangeToCompatibleType(rt, p.value, Some(pi.parameterType), pi.converterTypeName)
    ensures p.kind == PropertySetter && TryGetDeclaringProperty(rt, pi).1.None?
      ==> r == ChangeToCompatibleType(rt, p.value, Some(pi.parameterType), None)
    ensures p.kind == PropertySetter && TryGetDeclaringProperty(rt, pi).1.Some?
      ==> r == ChangeToCompatibleType(rt, p.value, Some(pi.parameterType),
                                      TryGetDeclaringProperty(rt, pi).1.value.converterTypeName)
  {
    match p.kind
    case ConstructorParameter => ChangeToCompatibleType(rt, p.value, Some(pi.parameterType), pi.converterTypeName)
    case PropertySetter =>
      var prop := TryGetDeclaringProperty(rt, pi).1;
      ChangeToCompatibleType(rt, p.value, Some(pi.parameterType), if prop.Some? then prop.value.converterTypeName else None)
  }

  /** The properties rule never supplies a constructor's own parameter. */
  lemma PropertiesDoNotMatchConstructorParameters(rt: Runtime, p: ConfiguredParameter, pi: ParameterInfo)
    requires p.kind == PropertySetter && pi.member.ConstructorMember?
    ensures CanSupplyValue(rt, p, pi) == Success(false)
  {
  }

  /** Parameter names match whatever their letter case. */
  lemma ParameterNamesIgnoreCase(rt: Runtime, pi: ParameterInfo, value: Obj)
    requires pi.name == "Name"
    ensures CanSupplyValue(rt, ConfiguredParameter(ConstructorParameter, "name", value), pi) == Success(true)
    ensures CanSupplyValue(rt, ConfiguredParameter(ConstructorParameter, "NAME", value), pi) == Success(true)
  {
    assert Lower("Name") == "name" == Lower("name") == Lower("NAME");
  }

  // ----- GetType and GetAssembly -----

  /**
   * GetType: the configured name is first loaded as it is; only when that
   * fails and a default assembly is given is it looked up there ignoring
   * case; a name found by neither is an InvalidOperationException. A missing
   * name reaches Type.GetType as null.
   */
  function GetType(rt: Runtime, configuration: Option<Section>, key: string, defaultAssembly: Option<Assembly>)
    : (r: Result<TypeRef, Error>)
    ensures configuration.None? ==> r == Failure(ArgumentNull("configuration"))
    ensures configuration.Some? && Get(configuration.value, key).None? ==> r == Failure(ArgumentNull("typeName"))
    ensures configuration.Some? && Get(configuration.value, key).Some? ==>
      var typeName := Get(configuration.value, key).value;
      && (rt.getType(typeName).Some? ==> r == Success(rt.getType(typeName).value))
      && ((rt.getType(typeName).None? && defaultAssembly.Some? && rt.getTypeIgnoreCase(defaultAssembly.value, typeName).Some?)
            ==> r == Success(rt.getTypeIgnoreCase(defaultAssembly.value, typeName).value))
      && (r.Failure? <==>
            rt.getType(typeName).None?
            && (defaultAssembly.None? || rt.getTypeIgnoreCase(defaultAssembly.value, typeName).None?))
      && (r.Failure? ==> r.error == InvalidOperation(TypeNotFound(typeName)))
  {
    if configuration.None? then Failure(ArgumentNull("configuration"))
    else
      match Get(configuration.value, key)
      case None => Failure(ArgumentNull("typeName"))
      case Some(typeName) =>
        var found :=
          if rt.getType(typeName).None? && defaultAssembly.Some? then rt.getTypeIgnoreCase(defaultAssembly.value, typeName)
          else rt.getType(typeName);
        if found.None? then Failure(InvalidOperation(TypeNotFound(typeName)))
        else Success(found.value)
  }

  /** The default assembly is never consulted for a name that loads as it is. */
  lemma GetTypePrefersExactName(rt: Runtime, configuration: Section, key: string, a1: Option<Assembly>, a2: Option<Assembly>)
    requires Get(configuration, key).Some? && rt.getType(Get(configuration, key).value).Some?
    ensures GetType(rt, Some(configuration), key, a1) == GetType(rt, Some(configuration), key, a2)
  {
  }

  /**
   * GetAssembly: after the argument checks, a missing or blank assembly name
   * means no default assembly; any other name is loaded.
   */
  function GetAssembly(rt: Runtime, configuration: Option<Section>, key: Option<string>): (r: Result<Option<Assembly>, Error>)
    ensures CheckArguments(configuration, key).Some? ==> r == Failure(CheckArguments(configuration, key).value)
    ensures CheckArguments(configuration, key).None? && IsNullOrWhiteSpace(Get(configuration.value, key.value))
      ==> r == Success(None)
    ensures CheckArguments(configuration, key).None? && !IsNullOrWhiteSpace(Get(configuration.value, key.value))
      ==> match rt.loadAssembly(Get(configuration.value, key.value).value)
          case Success(a) => r == Success(Some(a))
          case Failure(e) => r == Failure(e)
  {
    match CheckArguments(configuration, key)
    case Some(e) => Failure(e)
    case None =>
      var assemblyName := Get(configuration.value, key.value);
      if IsNullOrWhiteSpace(assemblyName) then Success(None)
      else
        match rt.loadAssembly(assemblyName.value)
        case Success(a) => Success(Some(a))
        case Failure(e) => Failure(e)
  }

  /** DefaultAssembly: the assembly named by the "defaultAssembly" key, if any. */
  function DefaultAssembly(rt: Runtime, configuration: Option<Section>): (r: Result<Option<Assembly>, Error>)
    ensures configuration.None? ==> r == Failure(ArgumentNull("configuration"))
    ensures configuration.Some? && IsNullOrWhiteSpace(Get(configuration.value, "defaultAssembly")) ==> r == Success(None)
    ensures configuration.Some? && !IsNullOrWhiteSpace(Get(configuration.value, "defaultAssembly")) ==>
      match rt.loadAssembly(Get(configuration.value, "defaultAssembly").value)
      case Success(a) => r == Success(Some(a))
      case Failure(e) => r == Failure(e)
  {
    assert !IsBlank("defaultAssembly") by { assert !IsWhiteSpace("defaultAssembly"[0]); }
    GetAssembly(rt, configuration, Some("defaultAssembly"))
  }

  /** The three readers reject a null configuration, a null key and a blank
      key alike: ArgumentNullException, ArgumentNullException, ArgumentException. */
  lemma KeyChecksAgree(rt: Runtime, configuration: Option<Section>, key: Option<string>)
    ensures configuration.None? ==> GetParameters(configuration, key) == Failure(ArgumentNull("configuration"))
    ensures configuration.Some? && key.None? ==>
      && GetAssembly(rt, configuration, key) == Failure(ArgumentNull("key"))
      && GetParameters(configuration, key) == Failure(ArgumentNull("key"))
      && GetProperties(configuration, key) == Failure(ArgumentNull("key"))
    ensures configuration.Some? && key.Some? && IsBlank(key.value) ==>
      && GetAssembly(rt, configuration, key) == Failure(ArgumentEmpty("key"))
      && GetParameters(configuration, key) == Failure(ArgumentEmpty("key"))
      && GetProperties(configuration, key) == Failure(ArgumentEmpty("key"))
  {
  }
}
