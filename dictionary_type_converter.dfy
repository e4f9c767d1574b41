/** The ConvertTo loop of ConfiguredDictionaryParameter's type converter. */
module DictionaryTypeConverter {
  import opened Wrappers
  import opened Runtime
  import ConfiguredDictionaryParameter
  import opened TypeManipulation

  /**
   * The body of the loop for one entry: an empty key is a FormatException;
   * the key is converted to K, then the value to V, and IDictionary.Add
   * rejects a null key or one already present.
   */
  method AddConverted(rt: Runtime, dictionary: seq<(Obj, Obj)>, entry: (string, Option<string>),
                      keyType: TypeRef, valueType: TypeRef) returns (r: Result<seq<(Obj, Obj)>, Error>)
    ensures r == AddEntry(rt, dictionary, entry, keyType, valueType)
  {
    var (key, item) := entry;
    if key == "" {
      return Failure(DictionaryKeyMayNotBeNullOrEmpty);
    }
    var convertedKey := ChangeToCompatibleType(rt, Str(key), Some(keyType), None);
    if convertedKey.Failure? {
      return Failure(convertedKey.error);
    }
    var convertedValue := ChangeToCompatibleType(rt, StringObj(item), Some(valueType), None);
    if convertedValue.Failure? {
      return Failure(convertedValue.error);
    }
    if convertedKey.value.Null? {
      return Failure(ArgumentNull("key"));
    }
    if convertedKey.value in Keys(dictionary) {
      return Failure(DuplicateKey(convertedKey.value));
    }
    return Success(dictionary + [(convertedKey.value, convertedValue.value)]);
  }

  /** A left fold through fallible steps, stopping at the first failure. */
  function Fold<S, A>(items: seq<S>, init: A, step: (A, S) -> Result<A, Error>): Result<A, Error>
  {
    if items == [] then Success(init)
    else
      match Fold(items[..|items| - 1], init, step)
      case Failure(e) => Failure(e)
      case Success(acc) => step(acc, items[|items| - 1])
  }

  /** One more item: the prefix's accumulator stepped with item `i`. */
  lemma FoldNext<S, A>(items: seq<S>, init: A, step: (A, S) -> Result<A, Error>, i: nat, acc: A)
    requires i < |items| && Fold(items[..i], init, step) == Success(acc)
    ensures Fold(items[..i + 1], init, step) == step(acc, items[i])
  {
    assert items[..i + 1][..i] == items[..i];
  }

  /** A failing prefix decides the whole fold. */
  lemma {:induction false} FoldFailurePersists<S, A>(items: seq<S>, init: A, step: (A, S) -> Result<A, Error>, k: nat)
    requires k <= |items| && Fold(items[..k], init, step).Failure?
    ensures Fold(items, init, step) == Fold(items[..k], init, step)
    decreases |items|
  {
    if k < |items| {
      var n := |items| - 1;
      assert items[..n][..k] == items[..k];
      FoldFailurePersists(items[..n], init, step, k);
    } else {
      assert items[..k] == items;
    }
  }

  function EntryStep(rt: Runtime, keyType: TypeRef, valueType: TypeRef)
    : ((seq<(Obj, Obj)>, (string, Option<string>)) -> Result<seq<(Obj, Obj)>, Error>)
  {
    (pairs, entry) => AddEntry(rt, pairs, entry, keyType, valueType)
  }

  /** Adding the entries is the fold of AddEntry over them from the empty dictionary. */
  lemma {:induction false} AddEntriesIsFold(rt: Runtime, entries: seq<(string, Option<string>)>,
                                            keyType: TypeRef, valueType: TypeRef)
    ensures AddEntries(rt, entries, keyType, valueType) == Fold(entries, [], EntryStep(rt, keyType, valueType))
    decreases |entries|
  {
    if entries != [] {
      AddEntriesIsFold(rt, entries[..|entries| - 1], keyType, valueType);
    }
  }

  /**
   * The foreach loop over the configured entries: every entry converted and
   * added in order, stopping at the first entry that fails.
   */
  method AddAllConverted(rt: Runtime, entries: seq<(string, Option<string>)>, keyType: TypeRef, valueType: TypeRef)
    returns (r: Result<seq<(Obj, Obj)>, Error>)
    ensures r == AddEntries(rt, entries, keyType, valueType)
  {
    var step := EntryStep(rt, keyType, valueType);
    var dictionary: seq<(Obj, Obj)> := [];
    var i := 0;
    while i < |entries|
      invariant 0 <= i <= |entries|
      invariant Fold(entries[..i], [], step) == Success(dictionary)
    {
      var added := AddConverted(rt, dictionary, entries[i], keyType, valueType);
      FoldNext(entries, [], step, i, dictionary);
      if added.Failure? {
        FoldFailurePersists(entries, [], step, i + 1);
        AddEntriesIsFold(rt, entries, keyType, valueType);
        return Failure(added.error);
      }
      dictionary := added.value;
      i := i + 1;
    }
    assert entries[..i] == entries;
    AddEntriesIsFold(rt, entries, keyType, valueType);
    return Success(dictionary);
  }

  /**
   * ConvertTo: for a configured dictionary and an instantiable destination,
   * creates the Dictionary<K, V> and adds every entry converted, in order,
   * stopping at the first entry that fails; a null configured dictionary
   * leaves the new dictionary empty. Anything else goes to the base
   * TypeConverter.
   */
  method ConvertTo(rt: Runtime, value: Obj, destinationType: TypeRef) returns (r: Result<Obj, Error>)
    ensures r == DictionaryConvertTo(rt, value, destinationType)
  {
    var instantiableType := ConfiguredDictionaryParameter.GetInstantiableType(rt, destinationType);
    if value.ConfiguredDictionary? && instantiableType.Some? {
      var keyType := instantiableType.value.args[0];
      var valueType := instantiableType.value.args[1];
      var dictionary: seq<(Obj, Obj)> := [];
      if value.entries.Some? {
        var added := AddAllConverted(rt, value.entries.value, keyType, valueType);
        if added.Failure? {
          return Failure(added.error);
        }
        dictionary := added.value;
      }
      return Success(DictionaryInstance(keyType, valueType, dictionary));
    }
    return rt.baseConverter.convertTo(value, destinationType);
  }
}
