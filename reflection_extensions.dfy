/** Mapping a property-setter parameter back to the property it sets. */
module ReflectionExtensions {
  import opened Wrappers
  import opened Text
  import opened Runtime

  const SetterPrefix: string := "set_"

  /** The member is a special-name method named `set_...` (ordinal, case-sensitive). */
  predicate IsPropertySetter(member: MemberInfo)
    ensures IsPropertySetter(member) ==> member.MethodMember? && !StartsWithOrdinal(member.name, "get_")
    ensures IsPropertySetter(member) ==> !StartsWithOrdinal(member.name, "Set_")
  {
    member.MethodMember? && member.isSpecialName && StartsWithOrdinal(member.name, SetterPrefix)
  }

  /**
   * TryGetDeclaringProperty: the boolean says whether the parameter belongs to
   * a property setter; the property is then the declaring type's property
   * named by the method name without "set_" (possibly not found), and null
   * otherwise.
   */
  function TryGetDeclaringProperty(rt: Runtime, pi: ParameterInfo): (r: (bool, Option<PropertyInfo>))
    ensures r.0 <==> IsPropertySetter(pi.member)
    ensures r.0 ==> r.1 == rt.getProperty(pi.member.declaringType, pi.member.name[|SetterPrefix|..])
    ensures !r.0 ==> r.1.None?
  {
    var mi := pi.member;
    if mi.MethodMember? && mi.isSpecialName && StartsWithOrdinal(mi.name, "set_") then
      (true, rt.getProperty(mi.declaringType, mi.name[4..]))
    else
      (false, None)
  }

  /** The name looked up is the setter's name with its prefix removed, so
      prefixing it again gives the method name back. */
  lemma DeclaringPropertyNameRoundTrip(member: MemberInfo)
    requires IsPropertySetter(member)
    ensures SetterPrefix + member.name[4..] == member.name
  {
  }

  /** A parameter of an ordinary method, a constructor, or a special-name
      method with another prefix (a getter, or "Set_" in another case) is not
      a property setter. */
  lemma NonSettersHaveNoProperty(rt: Runtime, pi: ParameterInfo)
    requires || pi.member.ConstructorMember?
             || pi.member.OtherMember?
             || (pi.member.MethodMember? && !pi.member.isSpecialName)
             || (pi.member.MethodMember? && |pi.member.name| >= 4 && pi.member.name[..4] in {"get_", "Set_", "SET_"})
    ensures TryGetDeclaringProperty(rt, pi) == (false, None)
  {
  }

  /** A setter whose property the type does not report still answers true. */
  lemma SetterWithoutPropertyIsStillSetter(rt: Runtime, pi: ParameterInfo)
    requires IsPropertySetter(pi.member)
    requires rt.getProperty(pi.member.declaringType, pi.member.name[4..]).None?
    ensures TryGetDeclaringProperty(rt, pi) == (true, None)
  {
  }
}
