/**
 * ConfiguredDictionaryParameter's type converter: which dictionary type a
 * set of configured key/value strings can be materialised as.
 */
module ConfiguredDictionaryParameter {
  import opened Wrappers
  import opened Runtime

  /** The destination is a non-generic IDictionary, or a constructed generic
      whose definition is assignable to IDictionary<,>. */
  predicate IsDictionaryDestination(rt: Runtime, destinationType: TypeRef) {
    || rt.isAssignableFrom(DictionaryInterface, destinationType)
    || (destinationType.Constructed?
        && rt.isAssignableFrom(GenericDictionaryInterface, OpenGeneric(destinationType.definition)))
  }

  /** Key and value types: the destination's own arguments, else string and object. */
  function DictionaryGenerics(destinationType: TypeRef): (r: seq<TypeRef>)
    ensures !destinationType.Constructed? ==> r == [StringType, ObjectType]
  {
    if destinationType.Constructed? then destinationType.args else [StringType, ObjectType]
  }

  /**
   * GetInstantiableType: Dictionary<K, V> for a dictionary destination with
   * exactly two type arguments (string and object for a non-generic one) to
   * which Dictionary<K, V> is assignable, and null otherwise.
   */
  function GetInstantiableType(rt: Runtime, destinationType: TypeRef): (r: Option<TypeRef>)
    ensures r.Some? <==>
      && IsDictionaryDestination(rt, destinationType)
      && |DictionaryGenerics(destinationType)| == 2
      && rt.isAssignableFrom(destinationType, Constructed(DictionaryDefinition, DictionaryGenerics(destinationType)))
    ensures r.Some? ==> r.value.Constructed? && r.value.definition == DictionaryDefinition && |r.value.args| == 2
    ensures r.Some? ==> r.value == Constructed(DictionaryDefinition, DictionaryGenerics(destinationType))
  {
    if rt.isAssignableFrom(DictionaryInterface, destinationType)
      || (destinationType.Constructed?
          && rt.isAssignableFrom(GenericDictionaryInterface, OpenGeneric(destinationType.definition)))
    then
      var generics := DictionaryGenerics(destinationType);
      if |generics| != 2 then None
      else
        var dictType := Constructed(DictionaryDefinition, generics);
        if rt.isAssignableFrom(destinationType, dictType) then Some(dictType) else None
    else None
  }

  /** CanConvertTo: an instantiable type, or whatever the base TypeConverter accepts. */
  function CanConvertTo(rt: Runtime, destinationType: TypeRef): (r: bool)
    ensures GetInstantiableType(rt, destinationType).Some? ==> r
    ensures r <==> GetInstantiableType(rt, destinationType).Some? || rt.baseConverter.canConvertTo(destinationType)
  {
    GetInstantiableType(rt, destinationType).Some? || rt.baseConverter.canConvertTo(destinationType)
  }

  /** A non-generic IDictionary destination that accepts Dictionary<string, object> gets it. */
  lemma NonGenericDestinationUsesStringObject(rt: Runtime, destinationType: TypeRef)
    requires !destinationType.Constructed?
    requires rt.isAssignableFrom(DictionaryInterface, destinationType)
    requires rt.isAssignableFrom(destinationType, Constructed(DictionaryDefinition, [StringType, ObjectType]))
    ensures GetInstantiableType(rt, destinationType) == Some(Constructed(DictionaryDefinition, [StringType, ObjectType]))
  {
  }

  /** A generic destination without exactly two type arguments has no instantiable type. */
  lemma WrongArityHasNoInstantiableType(rt: Runtime, definition: string, args: seq<TypeRef>)
    requires |args| != 2
    ensures GetInstantiableType(rt, Constructed(definition, args)).None?
  {
  }
}
