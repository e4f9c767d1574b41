/**
 * ModuleRegistrar: every ordered child of "modules" names an Autofac module
 * type. The module is built with its constructor of most parameters, each
 * argument read from "parameters" under the parameter's own name, then its
 * "properties" are bound onto it, and it is registered with RegisterModule.
 */
module ModuleRegistrar {
  import opened Wrappers
  import opened Configuration
  import opened Runtime
  import opened ConfigurationExtensions
  import opened Builder

  // ----- choosing the constructor -----

  /** Constructor `i` has the most parameters, and every constructor before it has fewer. */
  predicate IsFirstWithMostParameters(ctors: seq<ConstructorInfo>, i: nat) {
    && i < |ctors|
    && (forall j :: 0 <= j < |ctors| ==> |ctors[j].parameters| <= |ctors[i].parameters|)
    && (forall j :: 0 <= j < i ==> |ctors[j].parameters| < |ctors[i].parameters|)
  }

  /**
   * The position OrderByDescending(parameter count).FirstOrDefault() selects:
   * the ordering is stable, so among the constructors with the most
   * parameters the first in finder order wins.
   */
  function MostParametersIndex(ctors: seq<ConstructorInfo>): (r: nat)
    requires ctors != []
    ensures IsFirstWithMostParameters(ctors, r)
    decreases |ctors|
  {
    if |ctors| == 1 then 0
    else
      var last := |ctors| - 1;
      var i := MostParametersIndex(ctors[..last]);
      assert forall j :: 0 <= j < last ==> ctors[..last][j] == ctors[j];
      if |ctors[last].parameters| > |ctors[i].parameters| then last else i
  }

  /** Only one position satisfies the choice, so the choice is determined by it. */
  lemma FirstWithMostParametersIsUnique(ctors: seq<ConstructorInfo>, i: nat, j: nat)
    requires IsFirstWithMostParameters(ctors, i) && IsFirstWithMostParameters(ctors, j)
    ensures i == j
  {
    assert |ctors[i].parameters| <= |ctors[j].parameters| && |ctors[j].parameters| <= |ctors[i].parameters|;
  }

  /**
   * GetMostParametersConstructor. The constructor finder raises
   * NoConstructorsFoundException for a type without public constructors;
   * otherwise the first constructor with the most parameters is chosen.
   */
  function GetMostParametersConstructor(rt: Runtime, moduleType: TypeRef): (r: Result<ConstructorInfo, Error>)
    ensures rt.findConstructors(moduleType) == [] <==> r.Failure?
    ensures r.Failure? ==> r.error == NoConstructorsFound(moduleType)
    ensures r.Success? ==> exists i: nat :: IsFirstWithMostParameters(rt.findConstructors(moduleType), i)
                                    && r.value == rt.findConstructors(moduleType)[i]
  {
    var ctors := rt.findConstructors(moduleType);
    if ctors == [] then Failure(NoConstructorsFound(moduleType))
    else
      var i := MostParametersIndex(ctors);
      Success(ctors[i])
  }

  // ----- building the module -----

  /** One constructor argument: the "parameters" child named like the parameter
      (ignoring case), bound to its type; a parameter nobody configured is bound
      from an empty section. */
  function ArgumentFor(rt: Runtime, parametersElement: Section, p: ParameterInfo): (r: Result<Obj, Error>)
    ensures FindChild(parametersElement.children, p.name).Some?
      ==> r == rt.bindGet(FindChild(parametersElement.children, p.name).value, p.parameterType)
    ensures FindChild(parametersElement.children, p.name).None?
      ==> r == rt.bindGet(Missing(p.name), p.parameterType)
  {
    rt.bindGet(GetSection(parametersElement, p.name), p.parameterType)
  }

  function ArgumentStep(rt: Runtime, parametersElement: Section): ParameterInfo -> Result<Obj, Error> {
    p => ArgumentFor(rt, parametersElement, p)
  }

  /**
   * The argument array of CreateModule: one value per constructor parameter,
   * in parameter order, each read under that parameter's name; the first
   * binding that throws ends the construction.
   */
  function ModuleArguments(rt: Runtime, parametersElement: Section, ctor: ConstructorInfo): (r: Result<seq<Obj>, Error>)
    ensures r.Success? ==>
      && |r.value| == |ctor.parameters|
      && forall i :: 0 <= i < |r.value| ==>
           rt.bindGet(GetSection(parametersElement, ctor.parameters[i].name), ctor.parameters[i].parameterType)
             == Success(r.value[i])
    ensures r.Failure? ==> exists i ::
      && 0 <= i < |ctor.parameters|
      && (forall j :: 0 <= j < i ==> ArgumentFor(rt, parametersElement, ctor.parameters[j]).Success?)
      && ArgumentFor(rt, parametersElement, ctor.parameters[i]) == Failure(r.error)
  {
    var arguments := Collect(ctor.parameters, ArgumentStep(rt, parametersElement));
    if arguments.error.Some? then
      assert ArgumentFor(rt, parametersElement, ctor.parameters[|arguments.produced|]) == Failure(arguments.error.value);
      Failure(arguments.error.value)
    else Success(arguments.produced)
  }

  /** `(IModule)value`: a null reference or an IModule passes, anything else is an InvalidCastException. */
  function CastToModule(rt: Runtime, value: Obj): (r: Result<Obj, Error>)
    ensures r.Success? <==> value.Null? || rt.isInstanceOfType(ModuleInterface, value)
    ensures r.Success? ==> r.value == value
    ensures r.Failure? ==> r.error == InvalidCast(ModuleInterface)
  {
    if value.Null? || rt.isInstanceOfType(ModuleInterface, value) then Success(value)
    else Failure(InvalidCast(ModuleInterface))
  }

  /**
   * CreateModule: the chosen constructor is invoked with the arguments,
   * the instance is cast to IModule, and only then are the "properties"
   * bound onto it; the module registered is the bound instance. Binding
   * onto a null instance does nothing, so a null instance stays null.
   */
  function CreateModule(rt: Runtime, moduleType: TypeRef, moduleElement: Section): (r: Result<Obj, Error>)
    ensures rt.findConstructors(moduleType) == [] ==> r == Failure(NoConstructorsFound(moduleType))
    ensures r.Success? ==>
      var ctor := GetMostParametersConstructor(rt, moduleType).value;
      var arguments := ModuleArguments(rt, GetSection(moduleElement, "parameters"), ctor);
      && GetMostParametersConstructor(rt, moduleType).Success?
      && arguments.Success?
      && rt.invoke(ctor, arguments.value).Success?
      && CastToModule(rt, rt.invoke(ctor, arguments.value).value).Success?
      && (rt.invoke(ctor, arguments.value).value.Null? ==> r.value == Null)
      && (!rt.invoke(ctor, arguments.value).value.Null? ==>
            rt.bind(GetSection(moduleElement, "properties"), rt.invoke(ctor, arguments.value).value) == Success(r.value))
  {
    match GetMostParametersConstructor(rt, moduleType)
    case Failure(e) => Failure(e)
    case Success(ctor) =>
      match ModuleArguments(rt, GetSection(moduleElement, "parameters"), ctor)
      case Failure(e) => Failure(e)
      case Success(arguments) =>
        match rt.invoke(ctor, arguments)
        case Failure(e) => Failure(e)
        case Success(instance) =>
          match CastToModule(rt, instance)
          case Failure(e) => Failure(e)
          case Success(cast) =>
            if cast.Null? then Success(Null) else rt.bind(GetSection(moduleElement, "properties"), cast)
  }

  /** The body of RegisterConfiguredModules' loop for one entry: resolve "type",
      build the module, register it; RegisterModule rejects a null module. */
  function ModuleFor(rt: Runtime, moduleElement: Section, defaultAssembly: Option<Assembly>): (r: Result<BuilderCall, Error>)
    ensures GetType(rt, Some(moduleElement), "type", defaultAssembly).Failure?
      ==> r == Failure(GetType(rt, Some(moduleElement), "type", defaultAssembly).error)
    ensures GetType(rt, Some(moduleElement), "type", defaultAssembly).Success? ==>
      var created := CreateModule(rt, GetType(rt, Some(moduleElement), "type", defaultAssembly).value, moduleElement);
      && (created.Failure? ==> r == Failure(created.error))
      && (created.Success? && created.value.Null? ==> r == Failure(ArgumentNull("module")))
      && (created.Success? && !created.value.Null? ==> r == Success(RegisterModule(created.value)))
    ensures r.Success? ==> r.value.RegisterModule? && !r.value.moduleInstance.Null?
  {
    match GetType(rt, Some(moduleElement), "type", defaultAssembly)
    case Failure(e) => Failure(e)
    case Success(moduleType) =>
      match CreateModule(rt, moduleType, moduleElement)
      case Failure(e) => Failure(e)
      case Success(instance) =>
        if instance.Null? then Failure(ArgumentNull("module")) else Success(RegisterModule(instance))
  }

  function ModuleStep(rt: Runtime, defaultAssembly: Option<Assembly>): Section -> Result<BuilderCall, Error> {
    moduleElement => ModuleFor(rt, moduleElement, defaultAssembly)
  }

  /**
   * The calls RegisterConfiguredModules makes once the builder is known not
   * to be null: the configuration is checked, the default assembly read, the
   * ordered "modules" entries obtained, and each entry's module registered in
   * turn until one throws.
   */
  function RegisterModulesTrace(rt: Runtime, configuration: Option<Section>): (r: Outcome<BuilderCall>)
    ensures configuration.None? ==> r == Outcome([], Some(ArgumentNull("configuration")))
    ensures forall i :: 0 <= i < |r.produced| ==> r.produced[i].RegisterModule? && !r.produced[i].moduleInstance.Null?
  {
    if configuration.None? then Outcome([], Some(ArgumentNull("configuration")))
    else
      match DefaultAssembly(rt, configuration)
      case Failure(e) => Outcome([], Some(e))
      case Success(defaultAssembly) =>
        match rt.orderedSubsections(configuration.value, "modules")
        case Failure(e) => Outcome([], Some(e))
        case Success(moduleElements) =>
          var trace := Collect(moduleElements, ModuleStep(rt, defaultAssembly));
          assert forall i :: 0 <= i < |trace.produced| ==>
            ModuleFor(rt, moduleElements[i], defaultAssembly) == Success(trace.produced[i]);
          trace
  }

  // ----- properties of module registration -----

  /**
   * One module per ordered "modules" entry, in entry order: when
   * registration completes, call `i` registers the module entry `i`
   * describes. Entries are not merged, so one module type may be
   * registered several times with different parameters.
   */
  lemma OneModulePerEntry(rt: Runtime, configuration: Section)
    requires RegisterModulesTrace(rt, Some(configuration)).error.None?
    ensures DefaultAssembly(rt, Some(configuration)).Success?
    ensures rt.orderedSubsections(configuration, "modules").Success?
    ensures var elements := rt.orderedSubsections(configuration, "modules").value;
      var p := RegisterModulesTrace(rt, Some(configuration)).produced;
      && |p| == |elements|
      && forall i :: 0 <= i < |p| ==>
           ModuleFor(rt, elements[i], DefaultAssembly(rt, Some(configuration)).value) == Success(p[i])
  {
    var elements := rt.orderedSubsections(configuration, "modules").value;
    var step := ModuleStep(rt, DefaultAssembly(rt, Some(configuration)).value);
    var p := Collect(elements, step).produced;
    forall i | 0 <= i < |p|
      ensures ModuleFor(rt, elements[i], DefaultAssembly(rt, Some(configuration)).value) == Success(p[i])
    {
      assert step(elements[i]) == Success(p[i]);
    }
  }

  /** Two entries describing modules register two modules, even of one type and with equal settings. */
  lemma EntriesAreNotMerged(rt: Runtime, first: Section, second: Section, defaultAssembly: Option<Assembly>)
    requires ModuleFor(rt, first, defaultAssembly).Success? && ModuleFor(rt, second, defaultAssembly).Success?
    ensures Collect([first, second], ModuleStep(rt, defaultAssembly))
         == Outcome([ModuleFor(rt, first, defaultAssembly).value, ModuleFor(rt, second, defaultAssembly).value], None)
  {
    var step := ModuleStep(rt, defaultAssembly);
    assert [first, second][..1] == [first];
    assert [first][..0] == [];
    assert Collect([first], step) == Outcome([ModuleFor(rt, first, defaultAssembly).value], None);
  }

  /** A module type without public constructors is never registered: its entry throws NoConstructorsFoundException. */
  lemma ModuleWithoutConstructorsFails(rt: Runtime, moduleElement: Section, defaultAssembly: Option<Assembly>)
    requires GetType(rt, Some(moduleElement), "type", defaultAssembly).Success?
    requires rt.findConstructors(GetType(rt, Some(moduleElement), "type", defaultAssembly).value) == []
    ensures ModuleFor(rt, moduleElement, defaultAssembly)
         == Failure(NoConstructorsFound(GetType(rt, Some(moduleElement), "type", defaultAssembly).value))
  {
  }

  /** The default module registrar. It holds no state: it works on the builder it is given. */
  class ModuleRegistrar {
    constructor() {
    }

    /** RegisterConfiguredModules: a null builder or configuration is an ArgumentNullException. */
    method RegisterConfiguredModules(rt: Runtime, builder: ContainerBuilder?, configuration: Option<Section>)
      returns (r: Option<Error>)
      modifies builder
      ensures builder == null ==> r == Some(ArgumentNull("builder"))
      ensures builder != null ==>
        && builder.calls == old(builder.calls) + RegisterModulesTrace(rt, configuration).produced
        && r == RegisterModulesTrace(rt, configuration).error
    {
      if builder == null {
        return Some(ArgumentNull("builder"));
      }
      if configuration.None? {
        return Some(ArgumentNull("configuration"));
      }
      var assembly := DefaultAssembly(rt, configuration);
      if assembly.Failure? {
        return Some(assembly.error);
      }
      var defaultAssembly := assembly.value;
      var ordered := rt.orderedSubsections(configuration.value, "modules");
      if ordered.Failure? {
        return Some(ordered.error);
      }
      r := builder.RecordEach(ordered.value, ModuleStep(rt, defaultAssembly));
    }
  }
}
