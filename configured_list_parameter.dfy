/**
 * ConfiguredListParameter's type converter: which collection type a list of
 * configured strings can be materialised as, and whether it can convert.
 */
module ConfiguredListParameter {
  import opened Wrappers
  import opened Runtime

  /** The type arguments a list for `destinationType` is built with: the
      destination's own arguments when it is a constructed generic, else object. */
  function ListGenerics(destinationType: TypeRef): (r: seq<TypeRef>)
    ensures !destinationType.Constructed? ==> r == [ObjectType]
  {
    if destinationType.Constructed? then destinationType.args else [ObjectType]
  }

  /**
   * GetInstantiableType: List<T> for an IEnumerable destination with exactly
   * one type argument (object for a non-generic one) to which List<T> is
   * assignable, and null otherwise.
   */
  function GetInstantiableType(rt: Runtime, destinationType: TypeRef): (r: Option<TypeRef>)
    ensures r.Some? <==>
      && rt.isAssignableFrom(EnumerableInterface, destinationType)
      && |ListGenerics(destinationType)| == 1
      && rt.isAssignableFrom(destinationType, Constructed(ListDefinition, ListGenerics(destinationType)))
    ensures r.Some? ==> r.value == Constructed(ListDefinition, [ListGenerics(destinationType)[0]])
  {
    if rt.isAssignableFrom(EnumerableInterface, destinationType) then
      var generics := ListGenerics(destinationType);
      if |generics| != 1 then None
      else
        var listType := Constructed(ListDefinition, generics);
        assert generics == [generics[0]];
        if rt.isAssignableFrom(destinationType, listType) then Some(listType) else None
    else None
  }

  /** CanConvertTo: an instantiable type, or whatever the base TypeConverter accepts. */
  function CanConvertTo(rt: Runtime, destinationType: TypeRef): (r: bool)
    ensures GetInstantiableType(rt, destinationType).Some? ==> r
    ensures r <==> GetInstantiableType(rt, destinationType).Some? || rt.baseConverter.canConvertTo(destinationType)
  {
    GetInstantiableType(rt, destinationType).Some? || rt.baseConverter.canConvertTo(destinationType)
  }

  /** A non-generic enumerable destination that accepts List<object> gets List<object>. */
  lemma NonGenericDestinationUsesObject(rt: Runtime, destinationType: TypeRef)
    requires !destinationType.Constructed?
    requires rt.isAssignableFrom(EnumerableInterface, destinationType)
    requires rt.isAssignableFrom(destinationType, Constructed(ListDefinition, [ObjectType]))
    ensures GetInstantiableType(rt, destinationType) == Some(Constructed(ListDefinition, [ObjectType]))
  {
  }

  /** A generic destination with no or several type arguments (a dictionary,
      say) cannot hold a configured list. */
  lemma WrongArityHasNoInstantiableType(rt: Runtime, definition: string, args: seq<TypeRef>)
    requires |args| != 1
    ensures GetInstantiableType(rt, Constructed(definition, args)).None?
  {
  }
}
