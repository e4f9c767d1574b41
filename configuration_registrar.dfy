/**
 * ConfigurationRegistrar: the entry point that registers a whole
 * configuration into a container builder, modules first, then components.
 */
module ConfigurationRegistrar {
  import opened Wrappers
  import opened Configuration
  import opened Runtime
  import opened ConfigurationExtensions
  import opened Builder
  import opened ComponentRegistrar
  import opened ModuleRegistrar

  /**
   * The calls RegisterConfiguration makes once the builder is known not to
   * be null: the configuration is checked, then the modules are registered,
   * and the components only if module registration completed.
   */
  function ConfigurationTrace(rt: Runtime, configuration: Option<Section>): (r: Outcome<BuilderCall>)
    ensures configuration.None? ==> r == Outcome([], Some(ArgumentNull("configuration")))
    ensures configuration.Some? ==> RegisterModulesTrace(rt, configuration).produced <= r.produced
  {
    if configuration.None? then Outcome([], Some(ArgumentNull("configuration")))
    else Then(RegisterModulesTrace(rt, configuration), RegisterComponentsTrace(rt, configuration))
  }

  /**
   * Modules are registered before components: no RegisterModule call
   * follows a call of component registration, and every module call comes
   * from module registration.
   */
  lemma ModulesRegisteredBeforeComponents(rt: Runtime, configuration: Section)
    ensures var p := ConfigurationTrace(rt, Some(configuration)).produced;
      forall i, j :: 0 <= i < j < |p| && p[j].RegisterModule? ==> p[i].RegisterModule?
  {
    var modules := RegisterModulesTrace(rt, Some(configuration));
    var components := RegisterComponentsTrace(rt, Some(configuration));
    if modules.error.None? {
      var p := modules.produced + components.produced;
      forall i, j | 0 <= i < j < |p| && p[j].RegisterModule?
        ensures p[i].RegisterModule?
      {
        if j >= |modules.produced| {
          assert false;
        }
      }
    }
  }

  /** A module that fails to register stops the run before any component is registered. */
  lemma ModuleFailureSkipsComponents(rt: Runtime, configuration: Section)
    requires RegisterModulesTrace(rt, Some(configuration)).error.Some?
    ensures ConfigurationTrace(rt, Some(configuration)) == RegisterModulesTrace(rt, Some(configuration))
    ensures var p := ConfigurationTrace(rt, Some(configuration)).produced;
      forall i :: 0 <= i < |p| ==> p[i].RegisterModule?
  {
  }

  /** The default configuration registrar: a component registrar and a module registrar. */
  class ConfigurationRegistrar {
    var componentRegistrar: ComponentRegistrar
    var moduleRegistrar: ModuleRegistrar

    /** The parameterless constructor installs the default registrars. */
    constructor()
      ensures fresh(componentRegistrar) && fresh(moduleRegistrar)
    {
      componentRegistrar := new ComponentRegistrar();
      moduleRegistrar := new ModuleRegistrar();
    }

    /** The two-registrar constructor, once its arguments are known not to be null. */
    constructor WithRegistrars(componentRegistrar: ComponentRegistrar, moduleRegistrar: ModuleRegistrar)
      ensures this.componentRegistrar == componentRegistrar && this.moduleRegistrar == moduleRegistrar
    {
      this.componentRegistrar := componentRegistrar;
      this.moduleRegistrar := moduleRegistrar;
    }

    /**
     * RegisterConfiguration: a null builder or configuration is an
     * ArgumentNullException; otherwise the modules are registered, then
     * the components.
     */
    method RegisterConfiguration(rt: Runtime, builder: ContainerBuilder?, configuration: Option<Section>)
      returns (r: Option<Error>)
      modifies builder
      ensures builder == null ==> r == Some(ArgumentNull("builder"))
      ensures builder != null ==>
        && builder.calls == old(builder.calls) + ConfigurationTrace(rt, configuration).produced
        && r == ConfigurationTrace(rt, configuration).error
    {
      if builder == null {
        return Some(ArgumentNull("builder"));
      }
      if configuration.None? {
        return Some(ArgumentNull("configuration"));
      }
      r := moduleRegistrar.RegisterConfiguredModules(rt, builder, configuration);
      if r.Some? {
        return;
      }
      r := componentRegistrar.RegisterConfiguredComponents(rt, builder, configuration);
      ThenAfter(old(builder.calls), RegisterModulesTrace(rt, configuration), RegisterComponentsTrace(rt, configuration));
    }
  }

  /**
   * The two-registrar constructor: a null component registrar, then a null
   * module registrar, is an ArgumentNullException naming it.
   */
  method NewConfigurationRegistrar(componentRegistrar: ComponentRegistrar?, moduleRegistrar: ModuleRegistrar?)
    returns (r: Result<ConfigurationRegistrar, Error>)
    ensures componentRegistrar == null ==> r == Failure(ArgumentNull("componentRegistrar"))
    ensures componentRegistrar != null && moduleRegistrar == null ==> r == Failure(ArgumentNull("moduleRegistrar"))
    ensures componentRegistrar != null && moduleRegistrar != null ==>
      && r.Success?
      && r.value.componentRegistrar == componentRegistrar
      && r.value.moduleRegistrar == moduleRegistrar
  {
    if componentRegistrar == null {
      return Failure(ArgumentNull("componentRegistrar"));
    }
    if moduleRegistrar == null {
      return Failure(ArgumentNull("moduleRegistrar"));
    }
    var registrar := new ConfigurationRegistrar.WithRegistrars(componentRegistrar, moduleRegistrar);
    return Success(registrar);
  }
}
