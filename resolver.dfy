/**
 * Version resolution: the SDK, runtime and ASP.NET constraints implied by
 * one project descriptor.
 */
module Resolver {
  import opened Wrappers
  import opened Versions
  import opened Descriptor

  datatype Resolution = Resolution(sdk: string, runtime: string, aspnet: Option<string>)

  /**
   * SDK `M.N.0`; runtime the pinned RuntimeFrameworkVersion verbatim, else
   * `M.N.*`; ASP.NET `M.N.*` for the web SDK only.
   */
  function Resolve(d: ProjectDescriptor): (r: Resolution)
    ensures ParseConstraint(r.sdk) == Some(Constraint(d.framework.major, d.framework.minor, Exact(0)))
    ensures IsCanonicalConstraintText(r.sdk)
    ensures d.runtimeFrameworkVersion.Some? ==> r.runtime == d.runtimeFrameworkVersion.value
    ensures d.runtimeFrameworkVersion.None? ==>
      ParseConstraint(r.runtime) == Some(Constraint(d.framework.major, d.framework.minor, AnyPatch))
    ensures d.runtimeFrameworkVersion.None? ==> IsCanonicalConstraintText(r.runtime)
    ensures r.aspnet.Some? <==> d.sdkKind == WebSdk
    ensures r.aspnet.Some? ==>
      ParseConstraint(r.aspnet.value) == Some(Constraint(d.framework.major, d.framework.minor, AnyPatch))
    ensures r.aspnet.Some? ==> IsCanonicalConstraintText(r.aspnet.value)
  {
    Resolution(
      SdkVersion(d.framework),
      d.runtimeFrameworkVersion.GetOr(WildcardVersion(d.framework)),
      if d.sdkKind == WebSdk then Some(WildcardVersion(d.framework)) else None)
  }

  /**
   * Pinning the runtime changes the runtime constraint only: the SDK is never
   * derived from the pinned runtime's patch, and ASP.NET keeps its wildcard.
   */
  lemma RuntimePinChangesOnlyRuntime(d: ProjectDescriptor, pin: string)
    ensures var pinned := Resolve(d.(runtimeFrameworkVersion := Some(pin)));
      pinned == Resolve(d).(runtime := pin)
  {
  }
}
