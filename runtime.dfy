/**
 * The .NET runtime as the configuration code sees it: types, objects,
 * exceptions, type converters and reflection metadata. Everything the code
 * asks the runtime (type loading, assignability, TypeDescriptor converters,
 * TryParse, constructor discovery and invocation, the configuration binder)
 * is a field of `Runtime`, a function the model treats as given.
 */
module Runtime {
  import opened Wrappers
  import opened Configuration

  /** A System.Type: a plain type, a constructed generic such as List<int>,
      or an open generic definition such as IDictionary<,>. */
  datatype TypeRef =
    | Named(name: string)
    | Constructed(definition: string, args: seq<TypeRef>)
    | OpenGeneric(definition: string)

  const ObjectType: TypeRef := Named("System.Object")
  const StringType: TypeRef := Named("System.String")
  const EnumerableInterface: TypeRef := Named("System.Collections.IEnumerable")
  const DictionaryInterface: TypeRef := Named("System.Collections.IDictionary")
  const GenericDictionaryInterface: TypeRef := OpenGeneric("System.Collections.Generic.IDictionary`2")
  const ModuleInterface: TypeRef := Named("Autofac.Core.IModule")
  const ListDefinition: string := "System.Collections.Generic.List`1"
  const DictionaryDefinition: string := "System.Collections.Generic.Dictionary`2"
  const ConfiguredListParameterType: TypeRef := Named("Autofac.Configuration.Util.ConfiguredListParameter")
  const ConfiguredDictionaryParameterType: TypeRef := Named("Autofac.Configuration.Util.ConfiguredDictionaryParameter")

  /** Type.GetGenericArguments() */
  function GenericArguments(t: TypeRef): seq<TypeRef> {
    if t.Constructed? then t.args else []
  }

  datatype Assembly = Assembly(fullName: string)

  /**
   * A runtime object. Configured parameter values are a string, a
   * ConfiguredListParameter (an array of nullable strings) or a
   * ConfiguredDictionaryParameter (a nullable Dictionary<string, string?>,
   * kept as its entries in enumeration order). The converters build List<T>
   * and Dictionary<K, V> instances; any other object is `Boxed`.
   */
  datatype Obj =
    | Null
    | Str(s: string)
    | ConfiguredList(items: seq<Option<string>>)
    | ConfiguredDictionary(entries: Option<seq<(string, Option<string>)>>)
    | ListInstance(elementType: TypeRef, elements: seq<Obj>)
    | DictionaryInstance(keyType: TypeRef, valueType: TypeRef, pairs: seq<(Obj, Obj)>)
    | Boxed(runtimeType: TypeRef, id: nat)

  /** A nullable string seen as an object. */
  function StringObj(s: Option<string>): (r: Obj)
    ensures s.None? <==> r.Null?
  {
    match s
    case None => Null
    case Some(t) => Str(t)
  }

  /** value.GetType() */
  function TypeOf(v: Obj): TypeRef
    requires !v.Null?
  {
    match v
    case Str(_) => StringType
    case ConfiguredList(_) => ConfiguredListParameterType
    case ConfiguredDictionary(_) => ConfiguredDictionaryParameterType
    case ListInstance(t, _) => Constructed(ListDefinition, [t])
    case DictionaryInstance(k, w, _) => Constructed(DictionaryDefinition, [k, w])
    case Boxed(t, _) => t
  }

  /** The message of an InvalidOperationException raised by this library. */
  datatype Message =
    | TypeNotFound(typeName: string)
    | TypeConversionUnsupported(from: TypeRef, to: TypeRef)
    | TypeConverterAttributeTypeNotConverter(converterTypeName: string)
    | UnrecognisedScope(scope: string)
    | UnrecognisedOwnership(ownership: string)
    | UnrecognisedBoolean(text: string)

  /** The exceptions the model distinguishes. */
  datatype Error =
    | ArgumentNull(paramName: string)                // ArgumentNullException
    | ArgumentEmpty(paramName: string)               // ArgumentException: may not be empty
    | InvalidOperation(message: Message)             // InvalidOperationException
    | DictionaryKeyMayNotBeNullOrEmpty               // FormatException
    | DuplicateKey(key: Obj)                         // ArgumentException from Dictionary.Add
    | NullReference                                  // NullReferenceException
    | TypeLoad(typeName: string)                     // TypeLoadException
    | NoConstructorsFound(moduleType: TypeRef)       // NoConstructorsFoundException
    | InvalidCast(targetType: TypeRef)               // InvalidCastException
    | Raised(origin: string)                         // anything foreign code throws

  /** A System.ComponentModel.TypeConverter. */
  datatype Converter = Converter(
    canConvertFrom: TypeRef -> bool,
    convertFrom: Obj -> Result<Obj, Error>,
    canConvertTo: TypeRef -> bool,
    convertTo: (Obj, TypeRef) -> Result<Obj, Error>)

  datatype MemberInfo =
    | MethodMember(name: string, isSpecialName: bool, declaringType: TypeRef)
    | ConstructorMember(declaringType: TypeRef)
    | OtherMember

  /** A ParameterInfo; `converterTypeName` is the ConverterTypeName of its
      first [TypeConverter] attribute, if it has one. */
  datatype ParameterInfo = ParameterInfo(
    name: string, parameterType: TypeRef, member: MemberInfo, converterTypeName: Option<string>)

  datatype PropertyInfo = PropertyInfo(name: string, propertyType: TypeRef, converterTypeName: Option<string>)

  datatype ConstructorInfo = ConstructorInfo(declaringType: TypeRef, parameters: seq<ParameterInfo>)

  /** What the model takes from the runtime and from libraries it does not show. */
  datatype Runtime = Runtime(
    getType: string -> Option<TypeRef>,                       // Type.GetType(name)
    getTypeIgnoreCase: (Assembly, string) -> Option<TypeRef>, // assembly.GetType(name, false, true)
    loadAssembly: string -> Result<Assembly, Error>,          // Assembly.Load(new AssemblyName(name))
    isAssignableFrom: (TypeRef, TypeRef) -> bool,             // to.IsAssignableFrom(from), as (to, from)
    isInstanceOfType: (TypeRef, Obj) -> bool,                 // type.IsInstanceOfType(value)
    isValueType: TypeRef -> bool,
    createDefault: TypeRef -> Obj,                            // Activator.CreateInstance(valueType)
    getConverter: TypeRef -> Converter,                       // TypeDescriptor.GetConverter(type)
    baseConverter: Converter,                                 // TypeConverter's own behaviour
    createConverter: TypeRef -> Option<Converter>,            // Activator.CreateInstance(t) as TypeConverter
    tryParse: TypeRef -> Option<string -> Option<Obj>>,       // public static bool TryParse(string, out T)
    getProperty: (TypeRef, string) -> Option<PropertyInfo>,   // type.GetProperty(name)
    findConstructors: TypeRef -> seq<ConstructorInfo>,        // DefaultConstructorFinder, in its order
    invoke: (ConstructorInfo, seq<Obj>) -> Result<Obj, Error>,// constructor.Invoke(arguments)
    bindGet: (Section, TypeRef) -> Result<Obj, Error>,        // section.Get(type)
    bind: (Section, Obj) -> Result<Obj, Error>,               // section.Bind(instance), giving the updated instance
    orderedSubsections: (Section, string) -> Result<seq<Section>, Error>) // GetOrderedSubsections(key)
}
