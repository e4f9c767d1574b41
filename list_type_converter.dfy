/** The ConvertTo loop of ConfiguredListParameter's type converter. */
module ListTypeConverter {
  import opened Wrappers
  import opened Runtime
  import ConfiguredListParameter
  import opened TypeManipulation

  /**
   * ConvertTo: for a configured list and an instantiable destination, creates
   * the List<T> and adds each item converted to T, in order; an item that
   * fails to convert ends the conversion with its error. Anything else goes
   * to the base TypeConverter.
   */
  method ConvertTo(rt: Runtime, value: Obj, destinationType: TypeRef) returns (r: Result<Obj, Error>)
    ensures r == ListConvertTo(rt, value, destinationType)
  {
    var instantiableType := ConfiguredListParameter.GetInstantiableType(rt, destinationType);
    if value.ConfiguredList? && instantiableType.Some? {
      var elementType := instantiableType.value.args[0];
      var collection: seq<Obj> := [];
      var i := 0;
      while i < |value.items|
        invariant 0 <= i <= |value.items|
        invariant ConvertItems(rt, value.items[..i], elementType) == Success(collection)
      {
        var converted := ChangeToCompatibleType(rt, StringObj(value.items[i]), Some(elementType), None);
        assert value.items[..i + 1][..i] == value.items[..i];
        if converted.Failure? {
          ConvertItemsFailurePersists(rt, value.items, elementType, i + 1);
          return Failure(converted.error);
        }
        collection := collection + [converted.value];
        i := i + 1;
      }
      assert value.items[..i] == value.items;
      return Success(ListInstance(elementType, collection));
    }
    return rt.baseConverter.convertTo(value, destinationType);
  }
}
