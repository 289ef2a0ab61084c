/**
 * The build plan handed to later build stages and its assembly from a
 * resolved project descriptor and the stack identifier.
 */
module BuildPlan {
  import opened Wrappers
  import opened Versions
  import opened Descriptor
  import opened Resolver

  /** The components named in plans; their concrete identifiers are defined by the component buildpacks. */
  datatype Component = Publish | DotnetSdk | DotnetRuntime | DotnetAspNet | NodeDependency | IcuDependency

  /** Keys of a requirement's metadata: needed at build time, at launch time. */
  datatype Phase = Build | Launch

  /** A required component; `None` stands for the empty (unversioned) version. */
  datatype Required = Required(name: Component, version: Option<string>, metadata: set<Phase>)

  datatype Plan = Plan(provisions: seq<Component>, requirements: seq<Required>)

  /** The legacy stack whose images need the ICU libraries supplied at build time. */
  const BionicStack: string := "io.buildpacks.stacks.bionic"

  const BuildOnly: set<Phase> := {Build}
  const BuildAndLaunch: set<Phase> := {Build, Launch}

  predicate DistinctNames(reqs: seq<Required>) {
    forall i, j :: 0 <= i < j < |reqs| ==> reqs[i].name != reqs[j].name
  }

  /** The first requirement on component name, if any. */
  function Lookup(reqs: seq<Required>, name: Component): (r: Option<Required>)
    ensures r.None? <==> forall i :: 0 <= i < |reqs| ==> reqs[i].name != name
    ensures r.Some? ==> r.value.name == name && r.value in reqs
  {
    if |reqs| == 0 then None
    else if reqs[0].name == name then Some(reqs[0])
    else Lookup(reqs[1..], name)
  }

  /** The requirement Lookup returns is the first one on that component. */
  lemma {:induction false} LookupIsFirst(reqs: seq<Required>, name: Component)
    requires Lookup(reqs, name).Some?
    ensures exists i ::
      0 <= i < |reqs| && reqs[i] == Lookup(reqs, name).value && (forall j :: 0 <= j < i ==> reqs[j].name != name)
  {
    if reqs[0].name != name {
      LookupIsFirst(reqs[1..], name);
      var i :| 0 <= i < |reqs[1..]| && reqs[1..][i] == Lookup(reqs[1..], name).value &&
        (forall j :: 0 <= j < i ==> reqs[1..][j].name != name);
      assert reqs[i + 1] == Lookup(reqs, name).value;
    } else {
      assert reqs[0] == Lookup(reqs, name).value;
    }
  }

  function OptionalEntry(present: bool, entry: Required): seq<Required> {
    if present then [entry] else []
  }

  /**
   * The plan: provide publish; require publish (build), the SDK, the runtime,
   * ASP.NET for the web SDK, node when a build action runs `npm install`, and
   * ICU (build only) on the bionic stack, in that order.
   */
  function Assemble(d: ProjectDescriptor, stack: string): (p: Plan)
    ensures p.provisions == [Publish]
    ensures DistinctNames(p.requirements)
    ensures |p.requirements| == 3 + (if d.sdkKind == WebSdk then 1 else 0)
      + (if d.hasNpmInstall then 1 else 0) + (if stack == BionicStack then 1 else 0)
  {
    var r := Resolve(d);
    Plan(
      [Publish],
      [Required(Publish, None, BuildOnly),
       Required(DotnetSdk, Some(r.sdk), BuildAndLaunch),
       Required(DotnetRuntime, Some(r.runtime), BuildAndLaunch)]
      + OptionalEntry(r.aspnet.Some?, Required(DotnetAspNet, r.aspnet, BuildAndLaunch))
      + OptionalEntry(d.hasNpmInstall, Required(NodeDependency, None, BuildAndLaunch))
      + OptionalEntry(stack == BionicStack, Required(IcuDependency, None, BuildOnly)))
  }

  lemma {:induction false} LookupAppend(a: seq<Required>, b: seq<Required>, name: Component)
    ensures Lookup(a + b, name) == if Lookup(a, name).Some? then Lookup(a, name) else Lookup(b, name)
    decreases |a|
  {
    if |a| > 0 {
      assert (a + b)[1..] == a[1..] + b;
      LookupAppend(a[1..], b, name);
    } else {
      assert a + b == b;
    }
  }

  lemma LookupThree(a: Required, b: Required, c: Required, name: Component)
    ensures Lookup([a, b, c], name) ==
      if a.name == name then Some(a) else if b.name == name then Some(b)
      else if c.name == name then Some(c) else None
  {
    assert [a, b, c][1..] == [b, c] && [b, c][1..] == [c] && [c][1..] == [];
    assert Lookup([c], name) == if c.name == name then Some(c) else Lookup([], name);
    assert Lookup([b, c], name) == if b.name == name then Some(b) else Lookup([c], name);
  }

  /** The lookup of one component in an assembled plan, stage by stage. */
  lemma LookupAssembled(d: ProjectDescriptor, stack: string, name: Component)
    ensures var r := Resolve(d);
      Lookup(Assemble(d, stack).requirements, name) ==
        if name == Publish then Some(Required(Publish, None, BuildOnly))
        else if name == DotnetSdk then Some(Required(DotnetSdk, Some(r.sdk), BuildAndLaunch))
        else if name == DotnetRuntime then Some(Required(DotnetRuntime, Some(r.runtime), BuildAndLaunch))
        else if name == DotnetAspNet then
          (if r.aspnet.Some? then Some(Required(DotnetAspNet, r.aspnet, BuildAndLaunch)) else None)
        else if name == NodeDependency then
          (if d.hasNpmInstall then Some(Required(NodeDependency, None, BuildAndLaunch)) else None)
        else (if stack == BionicStack then Some(Required(IcuDependency, None, BuildOnly)) else None)
  {
    var r := Resolve(d);
    var a, b, c := Required(Publish, None, BuildOnly),
                   Required(DotnetSdk, Some(r.sdk), BuildAndLaunch),
                   Required(DotnetRuntime, Some(r.runtime), BuildAndLaunch);
    var asp := OptionalEntry(r.aspnet.Some?, Required(DotnetAspNet, r.aspnet, BuildAndLaunch));
    var node := OptionalEntry(d.hasNpmInstall, Required(NodeDependency, None, BuildAndLaunch));
    var icu := OptionalEntry(stack == BionicStack, Required(IcuDependency, None, BuildOnly));
    LookupAppend([a, b, c] + asp + node, icu, name);
    LookupAppend([a, b, c] + asp, node, name);
    LookupAppend([a, b, c], asp, name);
    LookupThree(a, b, c, name);
  }

  /**
   * What the plan requires of each component, independent of order: the
   * publish, SDK and runtime entries always; ASP.NET exactly for the web SDK;
   * unversioned node exactly with `npm install`; unversioned build-only ICU
   * exactly on the bionic stack.
   */
  lemma AssembleRequirements(d: ProjectDescriptor, stack: string)
    ensures var reqs := Assemble(d, stack).requirements;
      && Lookup(reqs, Publish) == Some(Required(Publish, None, BuildOnly))
      && Lookup(reqs, DotnetSdk) == Some(Required(DotnetSdk, Some(SdkVersion(d.framework)), BuildAndLaunch))
      && Lookup(reqs, DotnetRuntime) ==
           Some(Required(DotnetRuntime, Some(d.runtimeFrameworkVersion.GetOr(WildcardVersion(d.framework))), BuildAndLaunch))
      && Lookup(reqs, DotnetAspNet) ==
           (if d.sdkKind == WebSdk then Some(Required(DotnetAspNet, Some(WildcardVersion(d.framework)), BuildAndLaunch)) else None)
      && Lookup(reqs, NodeDependency) ==
           (if d.hasNpmInstall then Some(Required(NodeDependency, None, BuildAndLaunch)) else None)
      && Lookup(reqs, IcuDependency) ==
           (if stack == BionicStack then Some(Required(IcuDependency, None, BuildOnly)) else None)
  {
    LookupAssembled(d, stack, Publish);
    LookupAssembled(d, stack, DotnetSdk);
    LookupAssembled(d, stack, DotnetRuntime);
    LookupAssembled(d, stack, DotnetAspNet);
    LookupAssembled(d, stack, NodeDependency);
    LookupAssembled(d, stack, IcuDependency);
  }

  /** The first three requirements are always publish, SDK and runtime, in that order. */
  lemma AssembleLeadingEntries(d: ProjectDescriptor, stack: string)
    ensures var reqs := Assemble(d, stack).requirements;
      |reqs| >= 3 && reqs[0].name == Publish && reqs[1].name == DotnetSdk && reqs[2].name == DotnetRuntime
    ensures d.sdkKind == WebSdk ==>
      Assemble(d, stack).requirements[3] == Required(DotnetAspNet, Some(WildcardVersion(d.framework)), BuildAndLaunch)
  {
  }

  /**
   * The bionic plan is the plan for any other stack with one unversioned,
   * build-only ICU entry appended; nothing else changes.
   */
  lemma BionicAppendsIcu(d: ProjectDescriptor, stack: string)
    requires stack != BionicStack
    ensures Assemble(d, BionicStack) ==
      Plan(Assemble(d, stack).provisions,
           Assemble(d, stack).requirements + [Required(IcuDependency, None, BuildOnly)])
  {
  }

  /**
   * A plain-SDK project without `npm install`, off the bionic stack, gets
   * exactly publish, SDK `M.N.0` and runtime (pinned or `M.N.*`).
   */
  lemma StandardPlan(d: ProjectDescriptor, stack: string)
    requires d.sdkKind == StandardSdk && !d.hasNpmInstall && stack != BionicStack
    ensures Assemble(d, stack) == Plan([Publish], [
      Required(Publish, None, BuildOnly),
      Required(DotnetSdk, Some(SdkVersion(d.framework)), BuildAndLaunch),
      Required(DotnetRuntime, Some(d.runtimeFrameworkVersion.GetOr(WildcardVersion(d.framework))), BuildAndLaunch)])
  {
  }

  /** The web SDK adds exactly one entry, ASP.NET `M.N.*`, right after the runtime. */
  lemma WebPlan(d: ProjectDescriptor, stack: string)
    requires d.sdkKind == WebSdk && !d.hasNpmInstall && stack != BionicStack
    ensures Assemble(d, stack).requirements ==
      Assemble(d.(sdkKind := StandardSdk), stack).requirements
      + [Required(DotnetAspNet, Some(WildcardVersion(d.framework)), BuildAndLaunch)]
  {
  }
}
