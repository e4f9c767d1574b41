/**
 * ComponentRegistrar: every child of "components" becomes one RegisterType
 * call on the container builder, followed by the calls that configure it,
 * always in the same order: services, constructor parameters, properties,
 * metadata, instance scope, ownership, property injection, auto-activation.
 */
module ComponentRegistrar {
  import opened Wrappers
  import opened Text
  import opened Configuration
  import opened Runtime
  import opened TypeManipulation
  import opened StringExtensions
  import opened ConfigurationExtensions
  import opened Builder

  // ----- the instanceScope and ownership grammars -----

  /** The form a scope or ownership setting is compared in: trimmed, with every '-' removed. */
  function Normalize(value: string): (r: string)
    ensures forall i :: 0 <= i < |r| ==> r[i] != '-'
  {
    RemoveChar(Trim(value), '-')
  }

  /** The scope a normalised, case-folded setting names, if any. */
  function ScopeNamed(word: string): (r: Option<InstanceScope>)
    ensures r == Some(SingleInstance) <==> word == "singleinstance"
    ensures r == Some(InstancePerLifetimeScope) <==> word == "instanceperlifetimescope" || word == "perlifetimescope"
    ensures r == Some(InstancePerDependency) <==> word == "instanceperdependency" || word == "perdependency"
    ensures r == Some(InstancePerRequest) <==> word == "instanceperrequest" || word == "perrequest"
  {
    if word == "singleinstance" then Some(SingleInstance)
    else if word == "instanceperlifetimescope" || word == "perlifetimescope" then Some(InstancePerLifetimeScope)
    else if word == "instanceperdependency" || word == "perdependency" then Some(InstancePerDependency)
    else if word == "instanceperrequest" || word == "perrequest" then Some(InstancePerRequest)
    else None
  }

  /** The ownership a normalised, case-folded setting names, if any. */
  function OwnershipNamed(word: string): (r: Option<Ownership>)
    ensures r == Some(OwnedByLifetimeScope) <==> word == "lifetimescope"
    ensures r == Some(ExternallyOwned) <==> word == "external" || word == "externallyowned"
  {
    if word == "lifetimescope" then Some(OwnedByLifetimeScope)
    else if word == "external" || word == "externallyowned" then Some(ExternallyOwned)
    else None
  }

  /** The grammar's words are already in lower case, so comparing the case-folded
      setting with them is the ordinal ignore-case comparison. */
  lemma GrammarWordsAreLowerCase()
    ensures Lower("singleinstance") == "singleinstance"
    ensures Lower("instanceperlifetimescope") == "instanceperlifetimescope"
    ensures Lower("perlifetimescope") == "perlifetimescope"
    ensures Lower("instanceperdependency") == "instanceperdependency"
    ensures Lower("perdependency") == "perdependency"
    ensures Lower("instanceperrequest") == "instanceperrequest"
    ensures Lower("perrequest") == "perrequest"
    ensures Lower("lifetimescope") == "lifetimescope"
    ensures Lower("external") == "external"
    ensures Lower("externallyowned") == "externallyowned"
  {
    LowerOfLowerCase("singleinstance");
    LowerOfLowerCase("instanceperlifetimescope");
    LowerOfLowerCase("perlifetimescope");
    LowerOfLowerCase("instanceperdependency");
    LowerOfLowerCase("perdependency");
    LowerOfLowerCase("instanceperrequest");
    LowerOfLowerCase("perrequest");
    LowerOfLowerCase("lifetimescope");
    LowerOfLowerCase("external");
    LowerOfLowerCase("externallyowned");
  }

  /**
   * SetLifetimeScope's decision: a null or blank setting leaves the scope
   * alone; otherwise the normalised setting, compared ignoring case, selects
   * one of the four scopes, and any other setting is an
   * InvalidOperationException carrying the normalised text.
   */
  function ParseInstanceScope(value: Option<string>): (r: Result<Option<InstanceScope>, Error>)
    ensures IsNullOrWhiteSpace(value) ==> r == Success(None)
    ensures !IsNullOrWhiteSpace(value) && ScopeNamed(Lower(Normalize(value.value))).Some?
      ==> r == Success(ScopeNamed(Lower(Normalize(value.value))))
    ensures !IsNullOrWhiteSpace(value) && ScopeNamed(Lower(Normalize(value.value))).None?
      ==> r == Failure(InvalidOperation(UnrecognisedScope(Normalize(value.value))))
  {
    if IsNullOrWhiteSpace(value) then Success(None)
    else
      var scope := Normalize(value.value);
      var folded := Lower(scope);
      if folded == "singleinstance" then Success(Some(SingleInstance))
      else if folded == "instanceperlifetimescope" || folded == "perlifetimescope"
      then Success(Some(InstancePerLifetimeScope))
      else if folded == "instanceperdependency" || folded == "perdependency"
      then Success(Some(InstancePerDependency))
      else if folded == "instanceperrequest" || folded == "perrequest"
      then Success(Some(InstancePerRequest))
      else Failure(InvalidOperation(UnrecognisedScope(scope)))
  }

  /**
   * SetComponentOwnership's decision: the same normalisation, then
   * "lifetimescope", or "external"/"externallyowned", ignoring case.
   */
  function ParseOwnership(value: Option<string>): (r: Result<Option<Ownership>, Error>)
    ensures IsNullOrWhiteSpace(value) ==> r == Success(None)
    ensures !IsNullOrWhiteSpace(value) && OwnershipNamed(Lower(Normalize(value.value))).Some?
      ==> r == Success(OwnershipNamed(Lower(Normalize(value.value))))
    ensures !IsNullOrWhiteSpace(value) && OwnershipNamed(Lower(Normalize(value.value))).None?
      ==> r == Failure(InvalidOperation(UnrecognisedOwnership(Normalize(value.value))))
  {
    if IsNullOrWhiteSpace(value) then Success(None)
    else
      var ownership := Normalize(value.value);
      var folded := Lower(ownership);
      if folded == "lifetimescope" then Success(Some(OwnedByLifetimeScope))
      else if folded == "external" || folded == "externallyowned"
      then Success(Some(ExternallyOwned))
      else Failure(InvalidOperation(UnrecognisedOwnership(ownership)))
  }

  /** Text that neither starts nor ends with whitespace is its own Trim. */
  lemma TrimOfUnpadded(s: string)
    requires s != [] && !IsWhiteSpace(s[0]) && !IsWhiteSpace(s[|s| - 1])
    ensures Trim(s) == s
  {
  }

  /** A hyphen placed anywhere in a setting that is not padded changes nothing. */
  lemma NormalizeIgnoresHyphen(w: string, k: nat)
    requires w != [] && !IsWhiteSpace(w[0]) && !IsWhiteSpace(w[|w| - 1])
    requires k <= |w|
    ensures Normalize(w[..k] + "-" + w[k..]) == Normalize(w)
  {
    var v := w[..k] + "-" + w[k..];
    assert v[0] == if k == 0 then '-' else w[0];
    assert v[|v| - 1] == if k == |w| then '-' else w[|w| - 1];
    TrimOfUnpadded(v);
    TrimOfUnpadded(w);
    RemoveCharInserted(w[..k], w[k..], '-');
    assert w[..k] + w[k..] == w;
    assert "-" == ['-'];
  }

  /** "single-instance", "Single-Instance" and "singleinstance" are one scope:
      hyphen placement and letter case do not matter. */
  lemma ScopeIgnoresHyphenPlacement(w: string, k: nat)
    requires w != [] && !IsWhiteSpace(w[0]) && !IsWhiteSpace(w[|w| - 1])
    requires k <= |w|
    ensures ParseInstanceScope(Some(w[..k] + "-" + w[k..])) == ParseInstanceScope(Some(w))
  {
    var v := w[..k] + "-" + w[k..];
    NormalizeIgnoresHyphen(w, k);
    assert !IsWhiteSpace(w[0]);
    assert !IsBlank(v) by { assert !IsWhiteSpace(v[|v| - 1]); }
  }

  /** The same for ownership settings: "lifetime-scope" is "lifetimescope". */
  lemma OwnershipIgnoresHyphenPlacement(w: string, k: nat)
    requires w != [] && !IsWhiteSpace(w[0]) && !IsWhiteSpace(w[|w| - 1])
    requires k <= |w|
    ensures ParseOwnership(Some(w[..k] + "-" + w[k..])) == ParseOwnership(Some(w))
  {
    var v := w[..k] + "-" + w[k..];
    NormalizeIgnoresHyphen(w, k);
    assert !IsWhiteSpace(w[0]);
    assert !IsBlank(v) by { assert !IsWhiteSpace(v[|v| - 1]); }
  }

  /** A setting that is not blank but normalises to nothing (hyphens and
      inner whitespace only) is rejected rather than ignored, with an empty
      normalised text. */
  lemma EmptyNormalizedScopeIsRejected(value: string)
    requires !IsBlank(value) && Normalize(value) == []
    ensures ParseInstanceScope(Some(value)) == Failure(InvalidOperation(UnrecognisedScope("")))
  {
    assert Lower(Normalize(value)) == [];
    assert ScopeNamed([]) == None;
  }

  /** The same for ownership settings. */
  lemma EmptyNormalizedOwnershipIsRejected(value: string)
    requires !IsBlank(value) && Normalize(value) == []
    ensures ParseOwnership(Some(value)) == Failure(InvalidOperation(UnrecognisedOwnership("")))
  {
    assert Lower(Normalize(value)) == [];
    assert OwnershipNamed([]) == None;
  }

  /** "-" and "--" are such settings. */
  lemma HyphensOnlyNormalizeToNothing()
    ensures !IsBlank("-") && Normalize("-") == []
    ensures !IsBlank("--") && Normalize("--") == []
  {
    assert !IsWhiteSpace("-"[0]) && !IsWhiteSpace("--"[0]);
    TrimOfUnpadded("-");
    TrimOfUnpadded("--");
    assert "--"[1..] == "-" && "-"[1..] == [];
  }

  // ----- services -----

  /**
   * One entry of "services": a KeyedService when its "key" is neither null
   * nor empty (whitespace is a key), a TypedService otherwise; its "type" is
   * resolved first. The "name" field is never read.
   */
  function ServiceFor(rt: Runtime, definition: Section, defaultAssembly: Option<Assembly>): (r: Result<Service, Error>)
    ensures GetType(rt, Some(definition), "type", defaultAssembly).Failure?
      ==> r == Failure(GetType(rt, Some(definition), "type", defaultAssembly).error)
    ensures r.Success? ==> r.value.serviceType == GetType(rt, Some(definition), "type", defaultAssembly).value
    ensures r.Success? ==> (r.value.KeyedService? <==> !IsNullOrEmpty(Get(definition, "key")))
    ensures r.Success? && r.value.KeyedService? ==> r.value.serviceKey == Get(definition, "key").value
  {
    match GetType(rt, Some(definition), "type", defaultAssembly)
    case Failure(e) => Failure(e)
    case Success(serviceType) =>
      var serviceKey := Get(definition, "key");
      if !IsNullOrEmpty(serviceKey) then Success(KeyedService(serviceKey.value, serviceType))
      else Success(TypedService(serviceType))
  }

  /** A service's key and type do not depend on the entry's "name". */
  lemma ServiceIgnoresName(rt: Runtime, definition: Section, name: Section, defaultAssembly: Option<Assembly>)
    requires EqualsIgnoreCase(name.key, "name")
    ensures ServiceFor(rt, Section(definition.key, definition.value, [name] + definition.children), defaultAssembly)
         == ServiceFor(rt, definition, defaultAssembly)
  {
    LowerOfLowerCase("name");
    LowerOfLowerCase("type");
    LowerOfLowerCase("key");
    assert !EqualsIgnoreCase(name.key, "type") && !EqualsIgnoreCase(name.key, "key");
    GetSectionSkipsOtherChild(definition, name, "type");
    GetSectionSkipsOtherChild(definition, name, "key");
  }

  function ServiceStep(rt: Runtime, defaultAssembly: Option<Assembly>): Section -> Result<Service, Error> {
    definition => ServiceFor(rt, definition, defaultAssembly)
  }

  /** EnumerateComponentServices: the services yielded, in entry order, before
      any entry's type failed to resolve. */
  function EnumerateComponentServices(rt: Runtime, component: Option<Section>, defaultAssembly: Option<Assembly>)
    : (r: Outcome<Service>)
    ensures component.None? ==> r == Outcome([], Some(ArgumentNull("component")))
    ensures component.Some? ==>
      var definitions := GetSection(component.value, "services").children;
      && |r.produced| <= |definitions|
      && (forall i :: 0 <= i < |r.produced| ==> ServiceFor(rt, definitions[i], defaultAssembly) == Success(r.produced[i]))
      && (r.error.None? ==> |r.produced| == |definitions|)
  {
    match component
    case None => Outcome([], Some(ArgumentNull("component")))
    case Some(c) => Collect(GetSection(c, "services").children, ServiceStep(rt, defaultAssembly))
  }

  function AsCalls(services: seq<Service>): (r: seq<BuilderCall>)
    ensures |r| == |services| && forall i :: 0 <= i < |r| ==> r[i] == As(services[i])
  {
    seq(|services|, i requires 0 <= i < |services| => As(services[i]))
  }

  lemma AsCallsAppend(services: seq<Service>, service: Service)
    ensures AsCalls(services + [service]) == AsCalls(services) + [As(service)]
  {
  }

  /** The calls RegisterComponentServices makes: one As per service yielded. */
  function ServicesTrace(rt: Runtime, component: Option<Section>, defaultAssembly: Option<Assembly>): (r: Outcome<BuilderCall>)
    ensures var services := EnumerateComponentServices(rt, component, defaultAssembly);
      && r.error == services.error
      && |r.produced| == |services.produced|
      && forall i :: 0 <= i < |r.produced| ==> r.produced[i] == As(services.produced[i])
  {
    var services := EnumerateComponentServices(rt, component, defaultAssembly);
    Outcome(AsCalls(services.produced), services.error)
  }

  // ----- parameters, properties and metadata -----

  function WithParameterCalls(parameters: seq<ConfiguredParameter>): (r: seq<BuilderCall>)
    ensures |r| == |parameters| && forall i :: 0 <= i < |r| ==> r[i] == WithParameter(parameters[i])
  {
    seq(|parameters|, i requires 0 <= i < |parameters| => WithParameter(parameters[i]))
  }

  function WithPropertyCalls(properties: seq<ConfiguredParameter>): (r: seq<BuilderCall>)
    ensures |r| == |properties| && forall i :: 0 <= i < |r| ==> r[i] == WithProperty(properties[i])
  {
    seq(|properties|, i requires 0 <= i < |properties| => WithProperty(properties[i]))
  }

  /** The calls RegisterComponentParameters makes: one WithParameter per configured parameter. */
  function ParametersTrace(component: Option<Section>): (r: Outcome<BuilderCall>)
    ensures component.None? ==> r == Outcome([], Some(ArgumentNull("component")))
    ensures forall i :: 0 <= i < |r.produced| ==>
      r.produced[i].WithParameter? && r.produced[i].parameter.kind == ConstructorParameter
  {
    if component.None? then Outcome([], Some(ArgumentNull("component")))
    else
      match GetParameters(component, Some("parameters"))
      case Failure(e) => Outcome([], Some(e))
      case Success(parameters) => Outcome(WithParameterCalls(parameters), None)
  }

  /** The calls RegisterComponentProperties makes: one WithProperty per configured property. */
  function PropertiesTrace(component: Option<Section>): (r: Outcome<BuilderCall>)
    ensures component.None? ==> r == Outcome([], Some(ArgumentNull("component")))
    ensures forall i :: 0 <= i < |r.produced| ==>
      r.produced[i].WithProperty? && r.produced[i].property.kind == PropertySetter
  {
    if component.None? then Outcome([], Some(ArgumentNull("component")))
    else
      match GetProperties(component, Some("properties"))
      case Failure(e) => Outcome([], Some(e))
      case Success(properties) => Outcome(WithPropertyCalls(properties), None)
  }

  /** Every child of "parameters" and of "properties" becomes exactly one call, in order. */
  lemma ParametersAndPropertiesNeverFail(component: Section)
    ensures ParametersTrace(Some(component)).error.None?
    ensures |ParametersTrace(Some(component)).produced| == |GetSection(component, "parameters").children|
    ensures ParametersTrace(Some(component)).produced
         == WithParameterCalls(ReadParameters(component, "parameters", ConstructorParameter))
    ensures PropertiesTrace(Some(component)).error.None?
    ensures |PropertiesTrace(Some(component)).produced| == |GetSection(component, "properties").children|
    ensures PropertiesTrace(Some(component)).produced
         == WithPropertyCalls(ReadParameters(component, "properties", PropertySetter))
  {
    assert !IsBlank("parameters") by { assert !IsWhiteSpace("parameters"[0]); }
    assert !IsBlank("properties") by { assert !IsWhiteSpace("properties"[0]); }
  }

  /**
   * One entry of "metadata": its "key" and its "value" converted to its
   * resolved "type" (no converter attribute). The type is resolved before
   * the value is converted.
   */
  function MetadataFor(rt: Runtime, entry: Section, defaultAssembly: Option<Assembly>): (r: Result<BuilderCall, Error>)
    ensures GetType(rt, Some(entry), "type", defaultAssembly).Failure?
      ==> r == Failure(GetType(rt, Some(entry), "type", defaultAssembly).error)
    ensures r.Success? ==> r.value.WithMetadata? && r.value.key == Get(entry, "key")
    ensures GetType(rt, Some(entry), "type", defaultAssembly).Success? ==>
      var converted := ChangeToCompatibleType(rt, StringObj(Get(entry, "value")),
                                              Some(GetType(rt, Some(entry), "type", defaultAssembly).value), None);
      && (r.Success? <==> converted.Success?)
      && (r.Success? ==> r.value.value == converted.value)
      && (r.Failure? ==> r.error == converted.error)
  {
    match GetType(rt, Some(entry), "type", defaultAssembly)
    case Failure(e) => Failure(e)
    case Success(t) =>
      match ChangeToCompatibleType(rt, StringObj(Get(entry, "value")), Some(t), None)
      case Failure(e) => Failure(e)
      case Success(v) => Success(WithMetadata(Get(entry, "key"), v))
  }

  /** A metadata value that is already a string of the configured type is kept as it is. */
  lemma MetadataKeepsStringsOfTheirType(rt: Runtime, entry: Section, defaultAssembly: Option<Assembly>)
    requires GetType(rt, Some(entry), "type", defaultAssembly).Success?
    requires Get(entry, "value").Some?
    requires rt.isInstanceOfType(GetType(rt, Some(entry), "type", defaultAssembly).value, Str(Get(entry, "value").value))
    ensures MetadataFor(rt, entry, defaultAssembly) == Success(WithMetadata(Get(entry, "key"), Str(Get(entry, "value").value)))
  {
  }

  function MetadataStep(rt: Runtime, defaultAssembly: Option<Assembly>): Section -> Result<BuilderCall, Error> {
    entry => MetadataFor(rt, entry, defaultAssembly)
  }

  /** The calls RegisterComponentMetadata makes: one WithMetadata per entry until one fails. */
  function MetadataTrace(rt: Runtime, component: Option<Section>, defaultAssembly: Option<Assembly>): (r: Outcome<BuilderCall>)
    ensures component.None? ==> r == Outcome([], Some(ArgumentNull("component")))
    ensures forall i :: 0 <= i < |r.produced| ==> r.produced[i].WithMetadata?
  {
    match component
    case None => Outcome([], Some(ArgumentNull("component")))
    case Some(c) =>
      var entries := GetSection(c, "metadata").children;
      var trace := Collect(entries, MetadataStep(rt, defaultAssembly));
      assert forall i :: 0 <= i < |trace.produced| ==>
        MetadataFor(rt, entries[i], defaultAssembly) == Success(trace.produced[i]);
      trace
  }

  // ----- scope, ownership, property injection, auto-activation -----

  /** The call SetLifetimeScope makes, if any; reading a null component dereferences null. */
  function ScopeTrace(component: Option<Section>): (r: Outcome<BuilderCall>)
    ensures |r.produced| <= 1 && forall i :: 0 <= i < |r.produced| ==> r.produced[i].SetInstanceScope?
    ensures component.None? ==> r.error == Some(NullReference)
    ensures component.Some? && IsNullOrWhiteSpace(Get(component.value, "instanceScope")) ==> r == Outcome([], None)
  {
    if component.None? then Outcome([], Some(NullReference))
    else
      match ParseInstanceScope(Get(component.value, "instanceScope"))
      case Failure(e) => Outcome([], Some(e))
      case Success(None) => Outcome([], None)
      case Success(Some(scope)) => Outcome([SetInstanceScope(scope)], None)
  }

  /** The call SetComponentOwnership makes, if any. */
  function OwnershipTrace(component: Option<Section>): (r: Outcome<BuilderCall>)
    ensures |r.produced| <= 1 && forall i :: 0 <= i < |r.produced| ==> r.produced[i].SetOwnership?
    ensures component.None? ==> r.error == Some(NullReference)
    ensures component.Some? && IsNullOrWhiteSpace(Get(component.value, "ownership")) ==> r == Outcome([], None)
  {
    if component.None? then Outcome([], Some(NullReference))
    else
      match ParseOwnership(Get(component.value, "ownership"))
      case Failure(e) => Outcome([], Some(e))
      case Success(None) => Outcome([], None)
      case Success(Some(ownership)) => Outcome([SetOwnership(ownership)], None)
  }

  /** The call SetInjectProperties or SetAutoActivate makes: `call` exactly
      when the flag reads as true. */
  function FlagTrace(component: Option<Section>, key: string, call: BuilderCall): (r: Outcome<BuilderCall>)
    ensures |r.produced| <= 1 && forall i :: 0 <= i < |r.produced| ==> r.produced[i] == call
    ensures component.Some? ==>
      var setting := Get(component.value, key);
      && (r == Outcome([call], None) <==> !IsNullOrWhiteSpace(setting) && Lower(setting.value) in TrueWords)
      && (r == Outcome([], None) <==> IsNullOrWhiteSpace(setting) || Lower(setting.value) in FalseWords)
      && (r.error.Some? ==> r.error.value == InvalidOperation(UnrecognisedBoolean(setting.value)))
  {
    if component.None? then Outcome([], Some(NullReference))
    else
      match ToFlexibleBoolean(Get(component.value, key))
      case Failure(e) => Outcome([], Some(e))
      case Success(flag) => if flag then Outcome([call], None) else Outcome([], None)
  }

  // ----- one component -----

  /** The position of each kind of call in a component's registration. */
  function StepOf(call: BuilderCall): nat {
    match call
    case RegisterModule(_) => 0
    case RegisterType(_) => 1
    case As(_) => 2
    case WithParameter(_) => 3
    case WithProperty(_) => 4
    case WithMetadata(_, _) => 5
    case SetInstanceScope(_) => 6
    case SetOwnership(_) => 7
    case PropertiesAutowired(_) => 8
    case AutoActivate => 9
  }

  predicate AllAtStep(calls: seq<BuilderCall>, k: nat) {
    forall i :: 0 <= i < |calls| ==> StepOf(calls[i]) == k
  }

  /** Every call is at step `k` or later, and the steps never go back. */
  predicate OrderedFrom(calls: seq<BuilderCall>, k: nat) {
    && (forall i :: 0 <= i < |calls| ==> k <= StepOf(calls[i]))
    && (forall i, j :: 0 <= i < j < |calls| ==> StepOf(calls[i]) <= StepOf(calls[j]))
  }

  /** Configuration step `k` of a component, in the order RegisterConfiguredComponents runs them. */
  function ComponentStep(rt: Runtime, component: Section, defaultAssembly: Option<Assembly>, k: nat): Outcome<BuilderCall> {
    var c := Some(component);
    match k
    case 0 => ServicesTrace(rt, c, defaultAssembly)
    case 1 => ParametersTrace(c)
    case 2 => PropertiesTrace(c)
    case 3 => MetadataTrace(rt, c, defaultAssembly)
    case 4 => ScopeTrace(c)
    case 5 => OwnershipTrace(c)
    case 6 => FlagTrace(c, "injectProperties", PropertiesAutowired(AllowCircularDependencies))
    case _ => FlagTrace(c, "autoActivate", AutoActivate)
  }

  /** The eight configuration steps of a component, in order. */
  function ComponentSteps(rt: Runtime, component: Section, defaultAssembly: Option<Assembly>): (r: seq<Outcome<BuilderCall>>)
    ensures |r| == 8
  {
    seq(8, k requires 0 <= k < 8 => ComponentStep(rt, component, defaultAssembly, k))
  }

  /** The calls made for one child of "components", stopping at the first exception. */
  function ComponentTrace(rt: Runtime, component: Section, defaultAssembly: Option<Assembly>): (r: Outcome<BuilderCall>)
    ensures GetType(rt, Some(component), "type", defaultAssembly).Failure?
      ==> r == Outcome([], Some(GetType(rt, Some(component), "type", defaultAssembly).error))
    ensures GetType(rt, Some(component), "type", defaultAssembly).Success?
      ==> r.produced != [] && r.produced[0] == RegisterType(GetType(rt, Some(component), "type", defaultAssembly).value)
  {
    match GetType(rt, Some(component), "type", defaultAssembly)
    case Failure(e) => Outcome([], Some(e))
    case Success(t) => Then(Outcome([RegisterType(t)], None), RunSteps(ComponentSteps(rt, component, defaultAssembly)))
  }

  /** The step of each kind of call, one kind at a time. */
  lemma StepOfKind(call: BuilderCall)
    ensures call.As? ==> StepOf(call) == 2
    ensures call.WithParameter? ==> StepOf(call) == 3
    ensures call.WithProperty? ==> StepOf(call) == 4
    ensures call.WithMetadata? ==> StepOf(call) == 5
    ensures call.SetInstanceScope? ==> StepOf(call) == 6
    ensures call.SetOwnership? ==> StepOf(call) == 7
    ensures call.PropertiesAutowired? ==> StepOf(call) == 8
    ensures call.AutoActivate? ==> StepOf(call) == 9
  {
  }

  /** The services step makes only As calls. */
  lemma ServicesAtStep(rt: Runtime, component: Section, defaultAssembly: Option<Assembly>)
    ensures AllAtStep(ServicesTrace(rt, Some(component), defaultAssembly).produced, 2)
  {
    var p := ServicesTrace(rt, Some(component), defaultAssembly).produced;
    forall i | 0 <= i < |p|
      ensures StepOf(p[i]) == 2
    {
      assert p[i].As?;
      StepOfKind(p[i]);
    }
  }

  /** The parameters step makes only WithParameter calls, the properties step only WithProperty calls. */
  lemma ParametersAtStep(component: Section)
    ensures AllAtStep(ParametersTrace(Some(component)).produced, 3)
    ensures AllAtStep(PropertiesTrace(Some(component)).produced, 4)
  {
    var p := ParametersTrace(Some(component)).produced;
    forall i | 0 <= i < |p|
      ensures StepOf(p[i]) == 3
    {
      assert p[i].WithParameter?;
      StepOfKind(p[i]);
    }
    var q := PropertiesTrace(Some(component)).produced;
    forall i | 0 <= i < |q|
      ensures StepOf(q[i]) == 4
    {
      assert q[i].WithProperty?;
      StepOfKind(q[i]);
    }
  }

  /** The metadata step makes only WithMetadata calls. */
  lemma MetadataAtStep(rt: Runtime, component: Section, defaultAssembly: Option<Assembly>)
    ensures AllAtStep(MetadataTrace(rt, Some(component), defaultAssembly).produced, 5)
  {
    var entries := GetSection(component, "metadata").children;
    var p := MetadataTrace(rt, Some(component), defaultAssembly).produced;
    forall i | 0 <= i < |p|
      ensures StepOf(p[i]) == 5
    {
      assert MetadataStep(rt, defaultAssembly)(entries[i]) == Success(p[i]);
      StepOfKind(p[i]);
    }
  }

  /** The scope step makes at most one call, a SetInstanceScope. */
  lemma ScopeAtStep(component: Section)
    ensures |ScopeTrace(Some(component)).produced| <= 1
    ensures AllAtStep(ScopeTrace(Some(component)).produced, 6)
  {
    var p := ScopeTrace(Some(component)).produced;
    forall i | 0 <= i < |p|
      ensures StepOf(p[i]) == 6
    {
      assert p[i].SetInstanceScope?;
      StepOfKind(p[i]);
    }
  }

  /** The ownership step makes at most one call, a SetOwnership. */
  lemma OwnershipAtStep(component: Section)
    ensures |OwnershipTrace(Some(component)).produced| <= 1
    ensures AllAtStep(OwnershipTrace(Some(component)).produced, 7)
  {
    var p := OwnershipTrace(Some(component)).produced;
    forall i | 0 <= i < |p|
      ensures StepOf(p[i]) == 7
    {
      assert p[i].SetOwnership?;
      StepOfKind(p[i]);
    }
  }

  /** Step `k` of a component makes only calls of kind k + 2. */
  lemma ComponentStepKind(rt: Runtime, component: Section, defaultAssembly: Option<Assembly>, k: nat)
    requires k < 8
    ensures AllAtStep(ComponentStep(rt, component, defaultAssembly, k).produced, k + 2)
  {
    var step := ComponentStep(rt, component, defaultAssembly, k);
    match k
    case 0 => ServicesAtStep(rt, component, defaultAssembly);
    case 1 => ParametersAtStep(component);
    case 2 => ParametersAtStep(component);
    case 3 => MetadataAtStep(rt, component, defaultAssembly);
    case 4 => ScopeAtStep(component);
    case 5 => OwnershipAtStep(component);
    case _ =>
      forall i | 0 <= i < |step.produced|
        ensures StepOf(step.produced[i]) == k + 2
      {
        StepOfKind(step.produced[i]);
      }
  }

  /** Every step of a component makes only calls of its own kind. */
  lemma ComponentStepKinds(rt: Runtime, component: Section, defaultAssembly: Option<Assembly>)
    ensures var steps := ComponentSteps(rt, component, defaultAssembly);
      forall k :: 0 <= k < 8 ==> AllAtStep(steps[k].produced, k + 2)
  {
    var steps := ComponentSteps(rt, component, defaultAssembly);
    forall k | 0 <= k < 8
      ensures AllAtStep(steps[k].produced, k + 2)
    {
      ComponentStepKind(rt, component, defaultAssembly, k);
    }
  }

  /** Running steps whose calls are of kinds 2, 3, ... in turn gives calls of
      non-decreasing kind, all below the kind of the next step. */
  lemma {:induction false} RunStepsOrdered(steps: seq<Outcome<BuilderCall>>)
    requires forall k :: 0 <= k < |steps| ==> AllAtStep(steps[k].produced, k + 2)
    ensures OrderedFrom(RunSteps(steps).produced, 2)
    ensures forall i :: 0 <= i < |RunSteps(steps).produced| ==> StepOf(RunSteps(steps).produced[i]) < |steps| + 2
    decreases |steps|
  {
    if steps != [] {
      var n := |steps| - 1;
      var init := steps[..n];
      RunStepsOrdered(init);
      var prefix := RunSteps(init);
      if prefix.error.None? {
        var p := prefix.produced + steps[n].produced;
        forall i, j | 0 <= i < j < |p|
          ensures StepOf(p[i]) <= StepOf(p[j])
        {
          if j >= |prefix.produced| {
            assert p[j] == steps[n].produced[j - |prefix.produced|];
            if i >= |prefix.produced| {
              assert p[i] == steps[n].produced[i - |prefix.produced|];
            }
          }
        }
        forall i | 0 <= i < |p|
          ensures 2 <= StepOf(p[i]) < |steps| + 2
        {
          if i >= |prefix.produced| {
            assert p[i] == steps[n].produced[i - |prefix.produced|];
          }
        }
      }
    }
  }

  /** A RegisterType followed by steps whose calls are of kinds 2, 3, ... in
      turn: the calls never go back a step, and only the first registers a type. */
  lemma RegistrationInOrder(t: TypeRef, steps: seq<Outcome<BuilderCall>>)
    requires forall k :: 0 <= k < |steps| ==> AllAtStep(steps[k].produced, k + 2)
    ensures var p := Then(Outcome([RegisterType(t)], None), RunSteps(steps)).produced;
      && p != [] && p[0] == RegisterType(t)
      && OrderedFrom(p, 1)
      && forall i :: 0 < i < |p| ==> StepOf(p[i]) >= 2
  {
    RunStepsOrdered(steps);
    var rest := RunSteps(steps).produced;
    var p := [RegisterType(t)] + rest;
    assert Then(Outcome([RegisterType(t)], None), RunSteps(steps)).produced == p;
    forall i | 0 < i < |p|
      ensures StepOf(p[i]) >= 2
    {
      assert p[i] == rest[i - 1];
    }
    forall i, j | 0 <= i < j < |p|
      ensures StepOf(p[i]) <= StepOf(p[j])
    {
      if i > 0 {
        assert p[i] == rest[i - 1] && p[j] == rest[j - 1];
      }
    }
  }

  /**
   * The steps of one component always run in the same order: RegisterType
   * first, then services, parameters, properties, metadata, scope,
   * ownership, property injection and auto-activation.
   */
  lemma ComponentStepsInOrder(rt: Runtime, component: Section, defaultAssembly: Option<Assembly>)
    ensures OrderedFrom(ComponentTrace(rt, component, defaultAssembly).produced, 1)
    ensures var p := ComponentTrace(rt, component, defaultAssembly).produced;
      forall i :: 0 < i < |p| ==> StepOf(p[i]) >= 2
    ensures var p := ComponentTrace(rt, component, defaultAssembly).produced;
      GetType(rt, Some(component), "type", defaultAssembly).Success?
      <==> p != [] && p[0] == RegisterType(GetType(rt, Some(component), "type", defaultAssembly).value)
  {
    match GetType(rt, Some(component), "type", defaultAssembly)
    case Failure(_) =>
    case Success(t) =>
      ComponentStepKinds(rt, component, defaultAssembly);
      RegistrationInOrder(t, ComponentSteps(rt, component, defaultAssembly));
  }

  // ----- all components -----

  /** What each child of "components" would make, registered on its own. */
  function ComponentOutcomes(rt: Runtime, components: seq<Section>, defaultAssembly: Option<Assembly>)
    : (r: seq<Outcome<BuilderCall>>)
    ensures |r| == |components|
  {
    seq(|components|, i requires 0 <= i < |components| => ComponentTrace(rt, components[i], defaultAssembly))
  }

  /** The calls made for the children of "components", in order, until one throws. */
  function ComponentsTrace(rt: Runtime, components: seq<Section>, defaultAssembly: Option<Assembly>): (r: Outcome<BuilderCall>)
    ensures r.error.None? ==>
      forall k :: 0 <= k < |components| ==> ComponentTrace(rt, components[k], defaultAssembly).error.None?
  {
    var outcomes := ComponentOutcomes(rt, components, defaultAssembly);
    if RunSteps(outcomes).error.None? then
      RunStepsCompleted(outcomes);
      assert forall k :: 0 <= k < |components| ==> outcomes[k] == ComponentTrace(rt, components[k], defaultAssembly);
      RunSteps(outcomes)
    else RunSteps(outcomes)
  }

  /** The implementation types of the RegisterType calls, in call order. */
  function RegisteredTypes(calls: seq<BuilderCall>): (r: seq<TypeRef>)
    ensures |r| <= |calls|
    decreases |calls|
  {
    if calls == [] then []
    else
      var last := calls[|calls| - 1];
      RegisteredTypes(calls[..|calls| - 1]) + (if last.RegisterType? then [last.implementationType] else [])
  }

  lemma {:induction false} RegisteredTypesAppend(a: seq<BuilderCall>, b: seq<BuilderCall>)
    ensures RegisteredTypes(a + b) == RegisteredTypes(a) + RegisteredTypes(b)
    decreases |b|
  {
    if b == [] {
      assert a + b == a;
    } else {
      var init := b[..|b| - 1];
      assert (a + b)[..|a + b| - 1] == a + init;
      RegisteredTypesAppend(a, init);
    }
  }

  lemma {:induction false} NoRegisteredTypes(calls: seq<BuilderCall>)
    requires forall i :: 0 <= i < |calls| ==> StepOf(calls[i]) >= 2
    ensures RegisteredTypes(calls) == []
    decreases |calls|
  {
    if calls != [] {
      NoRegisteredTypes(calls[..|calls| - 1]);
    }
  }

  /** A component that registers completely contributes exactly its own type. */
  lemma ComponentRegistersItsType(rt: Runtime, component: Section, defaultAssembly: Option<Assembly>)
    requires ComponentTrace(rt, component, defaultAssembly).error.None?
    ensures GetType(rt, Some(component), "type", defaultAssembly).Success?
    ensures RegisteredTypes(ComponentTrace(rt, component, defaultAssembly).produced)
         == [GetType(rt, Some(component), "type", defaultAssembly).value]
  {
    var p := ComponentTrace(rt, component, defaultAssembly).produced;
    ComponentStepsInOrder(rt, component, defaultAssembly);
    assert p == [p[0]] + p[1..];
    NoRegisteredTypes(p[1..]);
    RegisteredTypesAppend([p[0]], p[1..]);
    assert RegisteredTypes([p[0]]) == RegisteredTypes([]) + [p[0].implementationType] by {
      assert [p[0]][..0] == [];
    }
  }

  /** Steps that each register one type register, run to completion, those types in step order. */
  lemma {:induction false} RunStepsRegisteredTypes(steps: seq<Outcome<BuilderCall>>, types: seq<TypeRef>)
    requires |types| == |steps| && RunSteps(steps).error.None?
    requires forall k :: 0 <= k < |steps| && steps[k].error.None? ==> RegisteredTypes(steps[k].produced) == [types[k]]
    ensures RegisteredTypes(RunSteps(steps).produced) == types
    decreases |steps|
  {
    if steps != [] {
      var n := |steps| - 1;
      var init := steps[..n];
      RunStepsCompleted(steps);
      assert RunSteps(init).error.None?;
      forall k | 0 <= k < |init| && init[k].error.None?
        ensures RegisteredTypes(init[k].produced) == [types[..n][k]]
      {
        assert init[k] == steps[k];
      }
      RunStepsRegisteredTypes(init, types[..n]);
      RegisteredTypesAppend(RunSteps(init).produced, steps[n].produced);
      assert types == types[..n] + [types[n]];
    }
  }

  /**
   * Each child of "components" yields exactly one RegisterType, in
   * enumeration order, with the child's own type; a type that appears twice
   * is registered twice.
   */
  lemma OneRegistrationPerComponent(rt: Runtime, components: seq<Section>, defaultAssembly: Option<Assembly>)
    requires ComponentsTrace(rt, components, defaultAssembly).error.None?
    ensures var types := RegisteredTypes(ComponentsTrace(rt, components, defaultAssembly).produced);
      && |types| == |components|
      && forall i :: 0 <= i < |components| ==>
           GetType(rt, Some(components[i]), "type", defaultAssembly) == Success(types[i])
  {
    var outcomes := ComponentOutcomes(rt, components, defaultAssembly);
    var types := seq(|components|, i requires 0 <= i < |components| =>
      var t := GetType(rt, Some(components[i]), "type", defaultAssembly);
      if t.Success? then t.value else ObjectType);
    RunStepsCompleted(outcomes);
    forall k | 0 <= k < |outcomes|
      ensures RegisteredTypes(outcomes[k].produced) == [types[k]]
      ensures GetType(rt, Some(components[k]), "type", defaultAssembly) == Success(types[k])
    {
      assert outcomes[k] == ComponentTrace(rt, components[k], defaultAssembly);
      assert outcomes[k].error.None?;
      ComponentRegistersItsType(rt, components[k], defaultAssembly);
    }
    RunStepsRegisteredTypes(outcomes, types);
  }

  /** RegisterConfiguredComponents: the argument checks, the default assembly,
      then each child of "components". */
  function RegisterComponentsTrace(rt: Runtime, configuration: Option<Section>): (r: Outcome<BuilderCall>)
    ensures configuration.None? ==> r == Outcome([], Some(ArgumentNull("configuration")))
    ensures forall i :: 0 <= i < |r.produced| ==> !r.produced[i].RegisterModule?
  {
    if configuration.None? then Outcome([], Some(ArgumentNull("configuration")))
    else
      match DefaultAssembly(rt, configuration)
      case Failure(e) => Outcome([], Some(e))
      case Success(defaultAssembly) =>
        var components := GetSection(configuration.value, "components").children;
        ComponentsRegisterNoModules(rt, components, defaultAssembly);
        ComponentsTrace(rt, components, defaultAssembly)
  }

  /** The component registrar never registers a module. */
  lemma ComponentsRegisterNoModules(rt: Runtime, components: seq<Section>, defaultAssembly: Option<Assembly>)
    ensures var p := ComponentsTrace(rt, components, defaultAssembly).produced;
      forall i :: 0 <= i < |p| ==> !p[i].RegisterModule?
  {
    var outcomes := ComponentOutcomes(rt, components, defaultAssembly);
    forall k, i | 0 <= k < |outcomes| && 0 <= i < |outcomes[k].produced|
      ensures !outcomes[k].produced[i].RegisterModule?
    {
      ComponentStepsInOrder(rt, components[k], defaultAssembly);
    }
    RunStepsKeeps(outcomes, (call: BuilderCall) => !call.RegisterModule?);
  }

  // ----- the registrar -----

  /** The default component registrar. It holds no state: every method works on the builder it is given. */
  class ComponentRegistrar {
    constructor() {
    }

    /** RegisterConfiguredComponents: one registration per child of "components". */
    method RegisterConfiguredComponents(rt: Runtime, builder: ContainerBuilder?, configuration: Option<Section>)
      returns (r: Option<Error>)
      modifies builder
      ensures builder == null ==> r == Some(ArgumentNull("builder"))
      ensures builder != null ==>
        && builder.calls == old(builder.calls) + RegisterComponentsTrace(rt, configuration).produced
        && r == RegisterComponentsTrace(rt, configuration).error
    {
      if builder == null {
        return Some(ArgumentNull("builder"));
      }
      if configuration.None? {
        return Some(ArgumentNull("configuration"));
      }
      var assembly := DefaultAssembly(rt, configuration);
      if assembly.Failure? {
        return Some(assembly.error);
      }
      var defaultAssembly := assembly.value;
      var components := GetSection(configuration.value, "components").children;
      ghost var outcomes := ComponentOutcomes(rt, components, defaultAssembly);
      assert outcomes[..0] == [];
      var i := 0;
      while i < |components|
        invariant 0 <= i <= |components|
        invariant RunSteps(outcomes[..i]).error.None?
        invariant builder.calls == old(builder.calls) + RunSteps(outcomes[..i]).produced
      {
        ghost var done := RunSteps(outcomes[..i]).produced;
        r := RegisterComponent(rt, builder, components[i], defaultAssembly);
        assert outcomes[i] == ComponentTrace(rt, components[i], defaultAssembly);
        RunStepsNextAfter(outcomes, i, old(builder.calls));
        if r.Some? {
          RunStepsStopsAtFailure(outcomes, i + 1);
          return;
        }
        i := i + 1;
      }
      assert outcomes[..i] == outcomes;
      assert RegisterComponentsTrace(rt, configuration) == RunSteps(outcomes);
      return None;
    }

    /** The body of RegisterConfiguredComponents' loop: one component, step by step. */
    method RegisterComponent(rt: Runtime, builder: ContainerBuilder, component: Section, defaultAssembly: Option<Assembly>)
      returns (r: Option<Error>)
      modifies builder
      ensures builder.calls == old(builder.calls) + ComponentTrace(rt, component, defaultAssembly).produced
      ensures r == ComponentTrace(rt, component, defaultAssembly).error
    {
      var componentType := GetType(rt, Some(component), "type", defaultAssembly);
      if componentType.Failure? {
        return Some(componentType.error);
      }
      builder.Record(RegisterType(componentType.value));
      r := ConfigureComponent(rt, builder, component, defaultAssembly);
      ThenAfter(old(builder.calls), Outcome([RegisterType(componentType.value)], None),
                RunSteps(ComponentSteps(rt, component, defaultAssembly)));
    }

    /** The configuration steps of RegisterConfiguredComponents' loop body, after RegisterType. */
    method ConfigureComponent(rt: Runtime, builder: ContainerBuilder, component: Section, defaultAssembly: Option<Assembly>)
      returns (r: Option<Error>)
      modifies builder
      ensures builder.calls == old(builder.calls) + RunSteps(ComponentSteps(rt, component, defaultAssembly)).produced
      ensures r == RunSteps(ComponentSteps(rt, component, defaultAssembly)).error
    {
      ghost var start := builder.calls;
      assert ComponentSteps(rt, component, defaultAssembly)[..0] == [];
      r := ConfigureRegistration(rt, builder, component, defaultAssembly, start);
      if r.Some? {
        return;
      }
      r := ConfigureSettings(rt, builder, component, defaultAssembly, start);
      assert ComponentSteps(rt, component, defaultAssembly)[..8] == ComponentSteps(rt, component, defaultAssembly);
    }

    /** What the registration exposes and receives: services, parameters, properties, metadata. */
    method ConfigureRegistration(rt: Runtime, builder: ContainerBuilder, component: Section, defaultAssembly: Option<Assembly>,
        ghost start: seq<BuilderCall>)
      returns (r: Option<Error>)
      requires RunSteps(ComponentSteps(rt, component, defaultAssembly)[..0]).error.None?
      requires builder.calls == start + RunSteps(ComponentSteps(rt, component, defaultAssembly)[..0]).produced
      modifies builder
      ensures r.None? ==> RunSteps(ComponentSteps(rt, component, defaultAssembly)[..4]).error.None?
      ensures r.None? ==> builder.calls == start + RunSteps(ComponentSteps(rt, component, defaultAssembly)[..4]).produced
      ensures r.Some? ==> r == RunSteps(ComponentSteps(rt, component, defaultAssembly)).error
      ensures r.Some? ==> builder.calls == start + RunSteps(ComponentSteps(rt, component, defaultAssembly)).produced
    {
      r := ConfigureServices(rt, builder, component, defaultAssembly, start);
      if r.Some? {
        return;
      }
      r := ConfigureProperties(rt, builder, component, defaultAssembly, start);
    }

    /** Services and constructor parameters. */
    method ConfigureServices(rt: Runtime, builder: ContainerBuilder, component: Section, defaultAssembly: Option<Assembly>,
        ghost start: seq<BuilderCall>)
      returns (r: Option<Error>)
      requires RunSteps(ComponentSteps(rt, component, defaultAssembly)[..0]).error.None?
      requires builder.calls == start + RunSteps(ComponentSteps(rt, component, defaultAssembly)[..0]).produced
      modifies builder
      ensures r.None? ==> RunSteps(ComponentSteps(rt, component, defaultAssembly)[..2]).error.None?
      ensures r.None? ==> builder.calls == start + RunSteps(ComponentSteps(rt, component, defaultAssembly)[..2]).produced
      ensures r.Some? ==> r == RunSteps(ComponentSteps(rt, component, defaultAssembly)).error
      ensures r.Some? ==> builder.calls == start + RunSteps(ComponentSteps(rt, component, defaultAssembly)).produced
    {
      r := ConfigurationStep(rt, builder, component, defaultAssembly, 0, start);
      if r.Some? {
        return;
      }
      r := ConfigurationStep(rt, builder, component, defaultAssembly, 1, start);
    }

    /** Properties and metadata. */
    method ConfigureProperties(rt: Runtime, builder: ContainerBuilder, component: Section, defaultAssembly: Option<Assembly>,
        ghost start: seq<BuilderCall>)
      returns (r: Option<Error>)
      requires RunSteps(ComponentSteps(rt, component, defaultAssembly)[..2]).error.None?
      requires builder.calls == start + RunSteps(ComponentSteps(rt, component, defaultAssembly)[..2]).produced
      modifies builder
      ensures r.None? ==> RunSteps(ComponentSteps(rt, component, defaultAssembly)[..4]).error.None?
      ensures r.None? ==> builder.calls == start + RunSteps(ComponentSteps(rt, component, defaultAssembly)[..4]).produced
      ensures r.Some? ==> r == RunSteps(ComponentSteps(rt, component, defaultAssembly)).error
      ensures r.Some? ==> builder.calls == start + RunSteps(ComponentSteps(rt, component, defaultAssembly)).produced
    {
      r := ConfigurationStep(rt, builder, component, defaultAssembly, 2, start);
      if r.Some? {
        return;
      }
      r := ConfigurationStep(rt, builder, component, defaultAssembly, 3, start);
    }

    /** The registration's settings: instance scope, ownership, property injection, auto-activation. */
    method ConfigureSettings(rt: Runtime, builder: ContainerBuilder, component: Section, defaultAssembly: Option<Assembly>,
        ghost start: seq<BuilderCall>)
      returns (r: Option<Error>)
      requires RunSteps(ComponentSteps(rt, component, defaultAssembly)[..4]).error.None?
      requires builder.calls == start + RunSteps(ComponentSteps(rt, component, defaultAssembly)[..4]).produced
      modifies builder
      ensures r.None? ==> RunSteps(ComponentSteps(rt, component, defaultAssembly)[..8]).error.None?
      ensures r.None? ==> builder.calls == start + RunSteps(ComponentSteps(rt, component, defaultAssembly)[..8]).produced
      ensures r.Some? ==> r == RunSteps(ComponentSteps(rt, component, defaultAssembly)).error
      ensures r.Some? ==> builder.calls == start + RunSteps(ComponentSteps(rt, component, defaultAssembly)).produced
    {
      r := ConfigureOwnership(rt, builder, component, defaultAssembly, start);
      if r.Some? {
        return;
      }
      r := ConfigureFlags(rt, builder, component, defaultAssembly, start);
    }

    /** Instance scope and ownership. */
    method ConfigureOwnership(rt: Runtime, builder: ContainerBuilder, component: Section, defaultAssembly: Option<Assembly>,
        ghost start: seq<BuilderCall>)
      returns (r: Option<Error>)
      requires RunSteps(ComponentSteps(rt, component, defaultAssembly)[..4]).error.None?
      requires builder.calls == start + RunSteps(ComponentSteps(rt, component, defaultAssembly)[..4]).produced
      modifies builder
      ensures r.None? ==> RunSteps(ComponentSteps(rt, component, defaultAssembly)[..6]).error.None?
      ensures r.None? ==> builder.calls == start + RunSteps(ComponentSteps(rt, component, defaultAssembly)[..6]).produced
      ensures r.Some? ==> r == RunSteps(ComponentSteps(rt, component, defaultAssembly)).error
      ensures r.Some? ==> builder.calls == start + RunSteps(ComponentSteps(rt, component, defaultAssembly)).produced
    {
      r := ConfigurationStep(rt, builder, component, defaultAssembly, 4, start);
      if r.Some? {
        return;
      }
      r := ConfigurationStep(rt, builder, component, defaultAssembly, 5, start);
    }

    /** Property injection and auto-activation. */
    method ConfigureFlags(rt: Runtime, builder: ContainerBuilder, component: Section, defaultAssembly: Option<Assembly>,
        ghost start: seq<BuilderCall>)
      returns (r: Option<Error>)
      requires RunSteps(ComponentSteps(rt, component, defaultAssembly)[..6]).error.None?
      requires builder.calls == start + RunSteps(ComponentSteps(rt, component, defaultAssembly)[..6]).produced
      modifies builder
      ensures r.None? ==> RunSteps(ComponentSteps(rt, component, defaultAssembly)[..8]).error.None?
      ensures r.None? ==> builder.calls == start + RunSteps(ComponentSteps(rt, component, defaultAssembly)[..8]).produced
      ensures r.Some? ==> r == RunSteps(ComponentSteps(rt, component, defaultAssembly)).error
      ensures r.Some? ==> builder.calls == start + RunSteps(ComponentSteps(rt, component, defaultAssembly)).produced
    {
      r := ConfigurationStep(rt, builder, component, defaultAssembly, 6, start);
      if r.Some? {
        return;
      }
      r := ConfigurationStep(rt, builder, component, defaultAssembly, 7, start);
    }

    /** Configuration step `k` of a component, run after the steps before it completed. */
    method ConfigurationStep(rt: Runtime, builder: ContainerBuilder, component: Section, defaultAssembly: Option<Assembly>,
                             k: nat, ghost start: seq<BuilderCall>)
      returns (r: Option<Error>)
      requires k < 8
      requires RunSteps(ComponentSteps(rt, component, defaultAssembly)[..k]).error.None?
      requires builder.calls == start + RunSteps(ComponentSteps(rt, component, defaultAssembly)[..k]).produced
      modifies builder
      ensures builder.calls == start + RunSteps(ComponentSteps(rt, component, defaultAssembly)[..k + 1]).produced
      ensures r == RunSteps(ComponentSteps(rt, component, defaultAssembly)[..k + 1]).error
      ensures r.Some? ==>
        RunSteps(ComponentSteps(rt, component, defaultAssembly)) == RunSteps(ComponentSteps(rt, component, defaultAssembly)[..k + 1])
    {
      ghost var steps := ComponentSteps(rt, component, defaultAssembly);
      ghost var done := RunSteps(steps[..k]).produced;
      RunStepsNextAfter(steps, k, start);
      r := ComponentStepCalls(rt, builder, component, defaultAssembly, k);
      assert steps[k] == ComponentStep(rt, component, defaultAssembly, k);
      if r.Some? {
        RunStepsStopsAtFailure(steps, k + 1);
      }
    }

    /** The call RegisterConfiguredComponents makes as configuration step `k`. */
    method ComponentStepCalls(rt: Runtime, builder: ContainerBuilder, component: Section, defaultAssembly: Option<Assembly>, k: nat)
      returns (r: Option<Error>)
      requires k < 8
      modifies builder
      ensures builder.calls == old(builder.calls) + ComponentStep(rt, component, defaultAssembly, k).produced
      ensures r == ComponentStep(rt, component, defaultAssembly, k).error
    {
      match k
      case 0 => r := RegisterComponentServices(rt, Some(component), builder, defaultAssembly);
      case 1 => r := RegisterComponentParameters(Some(component), builder);
      case 2 => r := RegisterComponentProperties(Some(component), builder);
      case 3 => r := RegisterComponentMetadata(rt, Some(component), builder, defaultAssembly);
      case 4 => r := SetLifetimeScope(Some(component), builder);
      case 5 => r := SetComponentOwnership(Some(component), builder);
      case 6 => r := SetInjectProperties(Some(component), builder);
      case _ => r := SetAutoActivate(Some(component), builder);
    }

    /** RegisterComponentServices: one As per service, in entry order. */
    method RegisterComponentServices(rt: Runtime, component: Option<Section>, registrar: ContainerBuilder?,
                                     defaultAssembly: Option<Assembly>)
      returns (r: Option<Error>)
      modifies registrar
      ensures component.None? ==> r == Some(ArgumentNull("component"))
      ensures component.Some? && registrar == null ==> r == Some(ArgumentNull("registrar"))
      ensures component.Some? && registrar != null ==>
        && registrar.calls == old(registrar.calls) + ServicesTrace(rt, component, defaultAssembly).produced
        && r == ServicesTrace(rt, component, defaultAssembly).error
      ensures component.None? && registrar != null ==> registrar.calls == old(registrar.calls)
    {
      if component.None? {
        return Some(ArgumentNull("component"));
      }
      if registrar == null {
        return Some(ArgumentNull("registrar"));
      }
      r := AddServiceCalls(registrar, GetSection(component.value, "services").children, ServiceStep(rt, defaultAssembly));
    }

    /** The foreach of RegisterComponentServices: As for each service in turn, until a type fails to resolve. */
    method AddServiceCalls<S>(registrar: ContainerBuilder, definitions: seq<S>, step: S -> Result<Service, Error>)
      returns (r: Option<Error>)
      modifies registrar
      ensures registrar.calls == old(registrar.calls) + AsCalls(Collect(definitions, step).produced)
      ensures r == Collect(definitions, step).error
    {
      var i := 0;
      while i < |definitions|
        invariant 0 <= i <= |definitions|
        invariant Collect(definitions[..i], step).error.None?
        invariant registrar.calls == old(registrar.calls) + AsCalls(Collect(definitions[..i], step).produced)
      {
        assert definitions[..i + 1][..i] == definitions[..i];
        match step(definitions[i])
        case Failure(e) =>
          CollectStopsAtFailure(definitions, step, i + 1);
          return Some(e);
        case Success(service) =>
          registrar.Record(As(service));
          assert Collect(definitions[..i + 1], step).produced == Collect(definitions[..i], step).produced + [service];
          AsCallsAppend(Collect(definitions[..i], step).produced, service);
        i := i + 1;
      }
      assert definitions[..i] == definitions;
      return None;
    }

    /** RegisterComponentParameters: one WithParameter per configured parameter. */
    method RegisterComponentParameters(component: Option<Section>, registrar: ContainerBuilder?) returns (r: Option<Error>)
      modifies registrar
      ensures component.None? ==> r == Some(ArgumentNull("component"))
      ensures component.Some? && registrar == null ==> r == Some(ArgumentNull("registrar"))
      ensures component.Some? && registrar != null ==>
        && registrar.calls == old(registrar.calls) + ParametersTrace(component).produced
        && r == ParametersTrace(component).error
      ensures component.None? && registrar != null ==> registrar.calls == old(registrar.calls)
    {
      if component.None? {
        return Some(ArgumentNull("component"));
      }
      if registrar == null {
        return Some(ArgumentNull("registrar"));
      }
      var parameters := GetParameters(component, Some("parameters"));
      if parameters.Failure? {
        return Some(parameters.error);
      }
      AddParameterCalls(registrar, parameters.value);
      return None;
    }

    /** The foreach of RegisterComponentParameters: WithParameter for each parameter in turn. */
    method AddParameterCalls(registrar: ContainerBuilder, parameters: seq<ConfiguredParameter>)
      modifies registrar
      ensures registrar.calls == old(registrar.calls) + WithParameterCalls(parameters)
    {
      var i := 0;
      while i < |parameters|
        invariant 0 <= i <= |parameters|
        invariant registrar.calls == old(registrar.calls) + WithParameterCalls(parameters[..i])
      {
        registrar.Record(WithParameter(parameters[i]));
        assert WithParameterCalls(parameters[..i + 1]) == WithParameterCalls(parameters[..i]) + [WithParameter(parameters[i])];
        i := i + 1;
      }
      assert parameters[..i] == parameters;
    }

    /** RegisterComponentProperties: one WithProperty per configured property. */
    method RegisterComponentProperties(component: Option<Section>, registrar: ContainerBuilder?) returns (r: Option<Error>)
      modifies registrar
      ensures component.None? ==> r == Some(ArgumentNull("component"))
      ensures component.Some? && registrar == null ==> r == Some(ArgumentNull("registrar"))
      ensures component.Some? && registrar != null ==>
        && registrar.calls == old(registrar.calls) + PropertiesTrace(component).produced
        && r == PropertiesTrace(component).error
      ensures component.None? && registrar != null ==> registrar.calls == old(registrar.calls)
    {
      if component.None? {
        return Some(ArgumentNull("component"));
      }
      if registrar == null {
        return Some(ArgumentNull("registrar"));
      }
      var properties := GetProperties(component, Some("properties"));
      if properties.Failure? {
        return Some(properties.error);
      }
      AddPropertyCalls(registrar, properties.value);
      return None;
    }

    /** The foreach of RegisterComponentProperties: WithProperty for each property in turn. */
    method AddPropertyCalls(registrar: ContainerBuilder, properties: seq<ConfiguredParameter>)
      modifies registrar
      ensures registrar.calls == old(registrar.calls) + WithPropertyCalls(properties)
    {
      var i := 0;
      while i < |properties|
        invariant 0 <= i <= |properties|
        invariant registrar.calls == old(registrar.calls) + WithPropertyCalls(properties[..i])
      {
        registrar.Record(WithProperty(properties[i]));
        assert WithPropertyCalls(properties[..i + 1]) == WithPropertyCalls(properties[..i]) + [WithProperty(properties[i])];
        i := i + 1;
      }
      assert properties[..i] == properties;
    }

    /** RegisterComponentMetadata: one WithMetadata per entry, in entry order. */
    method RegisterComponentMetadata(rt: Runtime, component: Option<Section>, registrar: ContainerBuilder?,
                                     defaultAssembly: Option<Assembly>)
      returns (r: Option<Error>)
      modifies registrar
      ensures component.None? ==> r == Some(ArgumentNull("component"))
      ensures component.Some? && registrar == null ==> r == Some(ArgumentNull("registrar"))
      ensures component.Some? && registrar != null ==>
        && registrar.calls == old(registrar.calls) + MetadataTrace(rt, component, defaultAssembly).produced
        && r == MetadataTrace(rt, component, defaultAssembly).error
      ensures component.None? && registrar != null ==> registrar.calls == old(registrar.calls)
    {
      if component.None? {
        return Some(ArgumentNull("component"));
      }
      if registrar == null {
        return Some(ArgumentNull("registrar"));
      }
      r := registrar.RecordEach(GetSection(component.value, "metadata").children, MetadataStep(rt, defaultAssembly));
    }

    /** SetLifetimeScope: at most one scope call. */
    method SetLifetimeScope(component: Option<Section>, registrar: ContainerBuilder?) returns (r: Option<Error>)
      modifies registrar
      ensures registrar == null ==> r == Some(ArgumentNull("registrar"))
      ensures registrar != null ==>
        && registrar.calls == old(registrar.calls) + ScopeTrace(component).produced
        && r == ScopeTrace(component).error
    {
      if registrar == null {
        return Some(ArgumentNull("registrar"));
      }
      if component.None? {
        return Some(NullReference);
      }
      match ParseInstanceScope(Get(component.value, "instanceScope"))
      case Failure(e) =>
        r := Some(e);
      case Success(None) =>
        r := None;
      case Success(Some(scope)) =>
        registrar.Record(SetInstanceScope(scope));
        r := None;
    }

    /** SetComponentOwnership: at most one ownership call. */
    method SetComponentOwnership(component: Option<Section>, registrar: ContainerBuilder?) returns (r: Option<Error>)
      modifies registrar
      ensures registrar == null ==> r == Some(ArgumentNull("registrar"))
      ensures registrar != null ==>
        && registrar.calls == old(registrar.calls) + OwnershipTrace(component).produced
        && r == OwnershipTrace(component).error
    {
      if registrar == null {
        return Some(ArgumentNull("registrar"));
      }
      if component.None? {
        return Some(NullReference);
      }
      match ParseOwnership(Get(component.value, "ownership"))
      case Failure(e) =>
        r := Some(e);
      case Success(None) =>
        r := None;
      case Success(Some(ownership)) =>
        registrar.Record(SetOwnership(ownership));
        r := None;
    }

    /** SetInjectProperties: PropertiesAutowired exactly when "injectProperties" reads as true. */
    method SetInjectProperties(component: Option<Section>, registrar: ContainerBuilder?) returns (r: Option<Error>)
      modifies registrar
      ensures registrar == null ==> r == Some(ArgumentNull("registrar"))
      ensures registrar != null ==>
        && registrar.calls == old(registrar.calls) + FlagTrace(component, "injectProperties", PropertiesAutowired(AllowCircularDependencies)).produced
        && r == FlagTrace(component, "injectProperties", PropertiesAutowired(AllowCircularDependencies)).error
    {
      if registrar == null {
        return Some(ArgumentNull("registrar"));
      }
      if component.None? {
        return Some(NullReference);
      }
      match ToFlexibleBoolean(Get(component.value, "injectProperties"))
      case Failure(e) =>
        r := Some(e);
      case Success(flag) =>
        if flag {
          registrar.Record(PropertiesAutowired(AllowCircularDependencies));
        }
        r := None;
    }

    /** SetAutoActivate: AutoActivate exactly when "autoActivate" reads as true. */
    method SetAutoActivate(component: Option<Section>, registrar: ContainerBuilder?) returns (r: Option<Error>)
      modifies registrar
      ensures registrar == null ==> r == Some(ArgumentNull("registrar"))
      ensures registrar != null ==>
        && registrar.calls == old(registrar.calls) + FlagTrace(component, "autoActivate", AutoActivate).produced
        && r == FlagTrace(component, "autoActivate", AutoActivate).error
    {
      if registrar == null {
        return Some(ArgumentNull("registrar"));
      }
      if component.None? {
        return Some(NullReference);
      }
      match ToFlexibleBoolean(Get(component.value, "autoActivate"))
      case Failure(e) =>
        r := Some(e);
      case Success(flag) =>
        if flag {
          registrar.Record(AutoActivate);
        }
        r := None;
    }
  }
}
