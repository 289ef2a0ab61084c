/**
 * The scenarios of cmd/detect/main_test.go, each as a lemma about RunDetect
 * on the directory layout and project-file signals the scenario sets up. The
 * stack a scenario does not set is any stack other than bionic.
 */
module DetectCases {
  import opened Wrappers
  import opened Text
  import opened Versions
  import opened Descriptor
  import opened BuildPlan
  import opened Detect

  const AppRoot: string := "/app"
  /** `/app/src/proj1` */
  const NestedRoot: string := JoinPath(AppRoot, "src/proj1")
  const AppCsproj: string := "appName.csproj"

  const PublishEntry: Required := Required(Publish, None, BuildOnly)

  function Sdk(v: string): Required { Required(DotnetSdk, Some(v), BuildAndLaunch) }
  function Runtime(v: string): Required { Required(DotnetRuntime, Some(v), BuildAndLaunch) }
  function AspNet(v: string): Required { Required(DotnetAspNet, Some(v), BuildAndLaunch) }

  /** The application root holding exactly the given entries. */
  function AppWith(entries: seq<Entry>): FileSystem {
    map[AppRoot := entries]
  }

  function AtRoot(stack: string): Context {
    Context(AppRoot, NoConfig, stack)
  }

  lemma ProjFileNames()
    ensures ProjKindOf(AppCsproj) == Some(CSharp)
    ensures ProjKindOf("another.csproj") == Some(CSharp)
    ensures ProjKindOf("appName.fsproj") == Some(FSharp)
    ensures ProjKindOf("another.vbproj") == Some(VisualBasic)
  {
    assert AppCsproj[7..] == CSharpExtension;
    assert "another.csproj"[7..] == CSharpExtension;
    assert "appName.fsproj"[7..] == FSharpExtension;
    assert "another.vbproj"[7..] == VisualBasicExtension;
  }

  lemma Netcoreapp22()
    ensures ParseTargetFramework("netcoreapp2.2") == Some(Framework(2, 2))
    ensures SdkVersion(Framework(2, 2)) == "2.2.0" && WildcardVersion(Framework(2, 2)) == "2.2.*"
  {
    assert FormatTargetFramework(Framework(2, 2)) == "netcoreapp2.2";
    ParseFormatTargetFramework(Framework(2, 2));
  }

  lemma Netcoreapp30()
    ensures ParseTargetFramework("netcoreapp3.0") == Some(Framework(3, 0))
    ensures SdkVersion(Framework(3, 0)) == "3.0.0" && WildcardVersion(Framework(3, 0)) == "3.0.*"
  {
    assert FormatTargetFramework(Framework(3, 0)) == "netcoreapp3.0";
    ParseFormatTargetFramework(Framework(3, 0));
  }

  // The project files the scenarios write, and the descriptors they yield.

  const PlainProject: ProjectFile := ProjectFile(StandardSdkName, ["netcoreapp2.2"], [], [], [])
  const PinnedProject: ProjectFile := ProjectFile(StandardSdkName, ["netcoreapp2.2"], ["2.2.7"], [], [])
  const SpaCommands: seq<string> :=
    ["node --version", "npm install", "npm run build -- --prod", "npm run build:ssr -- --prod"]
  const SpaProject: ProjectFile := ProjectFile(WebSdkName, ["netcoreapp2.2"], ["2.2.7"], SpaCommands, [])
  const AspNetRefs: seq<string> := ["Microsoft.AspNetCore.App", "Microsoft.AspNetCore.Razor.Design"]
  const AspNetProjectFile: ProjectFile := ProjectFile(WebSdkName, ["netcoreapp2.2"], [], [], AspNetRefs)
  const SteeltoeRefs: seq<string> := ["Steeltoe.Management.ExporterCore", "Steeltoe.Management.CloudFoundryCore"]
  const SteeltoeProject: ProjectFile := ProjectFile(WebSdkName, ["netcoreapp3.0"], [], [], SteeltoeRefs)
  /** A project file whose target framework is not `netcoreappM.N`. */
  const Net48Project: ProjectFile := ProjectFile(StandardSdkName, ["net48"], [], [], [])
  const WebBody: ProjectFile := ProjectFile(WebSdkName, ["netcoreapp2.2"], [], [], [])

  const Plain22: ProjectDescriptor := ProjectDescriptor(StandardSdk, Framework(2, 2), None, false)
  const Pinned22: ProjectDescriptor := ProjectDescriptor(StandardSdk, Framework(2, 2), Some("2.2.7"), false)
  const Spa22: ProjectDescriptor := ProjectDescriptor(WebSdk, Framework(2, 2), Some("2.2.7"), true)
  const Web22: ProjectDescriptor := ProjectDescriptor(WebSdk, Framework(2, 2), None, false)
  const Web30: ProjectDescriptor := ProjectDescriptor(WebSdk, Framework(3, 0), None, false)

  lemma ParseScenarioProjects()
    ensures ParseProject(PlainProject) == Success(Plain22)
    ensures ParseProject(PinnedProject) == Success(Pinned22)
    ensures ParseProject(AspNetProjectFile) == Success(Web22)
    ensures ParseProject(WebBody) == Success(Web22)
    ensures ParseProject(SteeltoeProject) == Success(Web30)
  {
    Netcoreapp22();
    Netcoreapp30();
    ClassifyKnownSdks();
  }

  lemma ParseSpaProject()
    ensures ParseProject(SpaProject) == Success(Spa22)
  {
    Netcoreapp22();
    ClassifyKnownSdks();
    assert StartsWith(SpaCommands[1], NpmInstall);
    assert Contains(SpaCommands[1], NpmInstall);
  }

  lemma Web22Plan(stack: string)
    requires stack != BionicStack
    ensures Assemble(Web22, stack) == Plan([Publish], [PublishEntry, Sdk("2.2.0"), Runtime("2.2.*"), AspNet("2.2.*")])
  {
    Netcoreapp22();
    WebPlan(Web22, stack);
    StandardPlan(Plain22, stack);
  }

  lemma Web30Plan(stack: string)
    requires stack != BionicStack
    ensures Assemble(Web30, stack) == Plan([Publish], [PublishEntry, Sdk("3.0.0"), Runtime("3.0.*"), AspNet("3.0.*")])
  {
    Netcoreapp30();
    WebPlan(Web30, stack);
    StandardPlan(Web30.(sdkKind := StandardSdk), stack);
  }

  lemma BionicWeb22Plan()
    ensures Assemble(Web22, BionicStack) == Plan([Publish], [PublishEntry, Sdk("2.2.0"), Runtime("2.2.*"),
      AspNet("2.2.*"), Required(IcuDependency, None, BuildOnly)])
  {
    BionicAppendsIcu(Web22, "");
    Web22Plan("");
    assert [PublishEntry, Sdk("2.2.0"), Runtime("2.2.*"), AspNet("2.2.*")] + [Required(IcuDependency, None, BuildOnly)]
      == [PublishEntry, Sdk("2.2.0"), Runtime("2.2.*"), AspNet("2.2.*"), Required(IcuDependency, None, BuildOnly)];
  }

  /** A plain-SDK `netcoreapp2.2` project: publish, SDK 2.2.0, runtime 2.2.*, nothing else. */
  lemma RuntimeOnlyProject(stack: string)
    requires stack != BionicStack
    ensures RunDetect(AtRoot(stack), AppWith([Entry(AppCsproj, Some(PlainProject))]))
      == Pass(Plan([Publish], [PublishEntry, Sdk("2.2.0"), Runtime("2.2.*")]))
  {
    ParseScenarioProjects();
    ProjFileNames();
    FirstProjectPasses(AtRoot(stack), AppRoot, [Entry(AppCsproj, Some(PlainProject))], PlainProject, Plain22);
    Netcoreapp22();
    StandardPlan(Plain22, stack);
  }

  /** A pinned RuntimeFrameworkVersion is taken verbatim; the SDK stays 2.2.0. */
  lemma PinnedRuntimeProject(stack: string)
    requires stack != BionicStack
    ensures RunDetect(AtRoot(stack), AppWith([Entry(AppCsproj, Some(PinnedProject))]))
      == Pass(Plan([Publish], [PublishEntry, Sdk("2.2.0"), Runtime("2.2.7")]))
  {
    ParseScenarioProjects();
    ProjFileNames();
    FirstProjectPasses(AtRoot(stack), AppRoot, [Entry(AppCsproj, Some(PinnedProject))], PinnedProject, Pinned22);
    Netcoreapp22();
    StandardPlan(Pinned22, stack);
  }

  /** An `npm install` build action brings in an unversioned node dependency for build and launch. */
  lemma NpmInstallProject(stack: string)
    ensures var o := RunDetect(AtRoot(stack), AppWith([Entry(AppCsproj, Some(SpaProject))]));
      o.Pass? && Required(NodeDependency, None, BuildAndLaunch) in o.plan.requirements
  {
    ParseSpaProject();
    ProjFileNames();
    FirstProjectPasses(AtRoot(stack), AppRoot, [Entry(AppCsproj, Some(SpaProject))], SpaProject, Spa22);
    AssembleRequirements(Spa22, stack);
  }

  /** The web SDK adds ASP.NET 2.2.* right after the runtime. */
  lemma AspNetProject(stack: string)
    requires stack != BionicStack
    ensures RunDetect(AtRoot(stack), AppWith([Entry(AppCsproj, Some(AspNetProjectFile))]))
      == Pass(Plan([Publish], [PublishEntry, Sdk("2.2.0"), Runtime("2.2.*"), AspNet("2.2.*")]))
  {
    ParseScenarioProjects();
    ProjFileNames();
    FirstProjectPasses(AtRoot(stack), AppRoot, [Entry(AppCsproj, Some(AspNetProjectFile))], AspNetProjectFile, Web22);
    Web22Plan(stack);
  }

  /** ASP.NET follows from the Sdk attribute alone: Steeltoe-only references on the web SDK, `netcoreapp3.0`. */
  lemma SteeltoeWebProject(stack: string)
    requires stack != BionicStack
    ensures RunDetect(AtRoot(stack), AppWith([Entry(AppCsproj, Some(SteeltoeProject))]))
      == Pass(Plan([Publish], [PublishEntry, Sdk("3.0.0"), Runtime("3.0.*"), AspNet("3.0.*")]))
  {
    ParseScenarioProjects();
    ProjFileNames();
    FirstProjectPasses(AtRoot(stack), AppRoot, [Entry(AppCsproj, Some(SteeltoeProject))], SteeltoeProject, Web30);
    Web30Plan(stack);
  }

  /** On the bionic stack the same project additionally requires ICU, build only, last. */
  lemma BionicAspNetProject()
    ensures RunDetect(AtRoot(BionicStack), AppWith([Entry(AppCsproj, Some(AspNetProjectFile))]))
      == Pass(Plan([Publish], [PublishEntry, Sdk("2.2.0"), Runtime("2.2.*"), AspNet("2.2.*"),
                               Required(IcuDependency, None, BuildOnly)]))
  {
    ParseScenarioProjects();
    ProjFileNames();
    FirstProjectPasses(AtRoot(BionicStack), AppRoot, [Entry(AppCsproj, Some(AspNetProjectFile))], AspNetProjectFile, Web22);
    BionicWeb22Plan();
  }

  const NestedProject: FileSystem := map[NestedRoot := [Entry(AppCsproj, Some(AspNetProjectFile))]]

  lemma OverrideScansNestedRoot(stack: string)
    ensures RunDetect(Context(AppRoot, ProjectPath("src/proj1"), stack), NestedProject)
      == RunDetect(Context(NestedRoot, NoConfig, stack), NestedProject)
  {
    OverrideRedirectsScanRoot(AtRoot(stack), NestedProject, "src/proj1");
  }

  /**
   * With `project-path: "src/proj1"` a project found only under
   * `/app/src/proj1` is detected with the same outcome as the same project
   * at the root.
   */
  lemma ProjectPathOverride(stack: string)
    ensures RunDetect(Context(AppRoot, ProjectPath("src/proj1"), stack), NestedProject)
      == RunDetect(AtRoot(stack), AppWith([Entry(AppCsproj, Some(AspNetProjectFile))]))
  {
    var entries := [Entry(AppCsproj, Some(AspNetProjectFile))];
    ParseScenarioProjects();
    ProjFileNames();
    OverrideScansNestedRoot(stack);
    FirstProjectPasses(Context(NestedRoot, NoConfig, stack), NestedRoot, entries, AspNetProjectFile, Web22);
    FirstProjectPasses(AtRoot(stack), AppRoot, entries, AspNetProjectFile, Web22);
  }

  /** Without the override the same tree has no project file at its root. */
  lemma NestedProjectNeedsOverride(stack: string)
    ensures RunDetect(AtRoot(stack), NestedProject) == Fail(NoProjFileFound)
  {
    assert AppRoot != NestedRoot by { assert |AppRoot| != |NestedRoot|; }
    assert Listing(NestedProject, AppRoot) == [];
  }

  /** An `.fsproj` file is a project file. */
  lemma FsprojProject(stack: string)
    ensures RunDetect(AtRoot(stack), AppWith([Entry("appName.fsproj", Some(WebBody))])) == Pass(Assemble(Web22, stack))
  {
    ParseScenarioProjects();
    ProjFileNames();
    FirstProjectPasses(AtRoot(stack), AppRoot, [Entry("appName.fsproj", Some(WebBody))], WebBody, Web22);
  }

  /**
   * Two `.csproj` files pass, and the first one found decides the plan: with
   * the scenario's shared body, and also when the second file is a plain-SDK
   * project whose plan would differ.
   */
  lemma TwoSameKindProjects(stack: string)
    ensures RunDetect(AtRoot(stack), AppWith([Entry(AppCsproj, Some(WebBody)), Entry("another.csproj", Some(WebBody))]))
      == Pass(Assemble(Web22, stack))
    ensures RunDetect(AtRoot(stack), AppWith([Entry(AppCsproj, Some(WebBody)), Entry("another.csproj", Some(PlainProject))]))
      == Pass(Assemble(Web22, stack))
    ensures Assemble(Web22, stack) != Assemble(Plain22, stack)
  {
    ParseScenarioProjects();
    ProjFileNames();
    FirstProjectPasses(AtRoot(stack), AppRoot,
      [Entry(AppCsproj, Some(WebBody)), Entry("another.csproj", Some(WebBody))], WebBody, Web22);
    FirstProjectPasses(AtRoot(stack), AppRoot,
      [Entry(AppCsproj, Some(WebBody)), Entry("another.csproj", Some(PlainProject))], WebBody, Web22);
    AssembleRequirements(Web22, stack);
    AssembleRequirements(Plain22, stack);
  }

  /**
   * A `.csproj` beside a `.vbproj` passes too: mixed kinds are not a
   * conflict, and the first project file found decides the plan.
   */
  lemma MixedKindProjects(stack: string)
    ensures RunDetect(AtRoot(stack), AppWith([Entry(AppCsproj, Some(WebBody)), Entry("another.vbproj", Some(WebBody))]))
      == Pass(Assemble(Web22, stack))
    ensures RunDetect(AtRoot(stack), AppWith([Entry(AppCsproj, Some(WebBody)), Entry("another.vbproj", Some(PlainProject))]))
      == Pass(Assemble(Web22, stack))
  {
    ParseScenarioProjects();
    ProjFileNames();
    FirstProjectPasses(AtRoot(stack), AppRoot,
      [Entry(AppCsproj, Some(WebBody)), Entry("another.vbproj", Some(WebBody))], WebBody, Web22);
    FirstProjectPasses(AtRoot(stack), AppRoot,
      [Entry(AppCsproj, Some(WebBody)), Entry("another.vbproj", Some(PlainProject))], WebBody, Web22);
  }

  /**
   * The first project file decides failure too: an unreadable first file, or
   * one whose target framework is not `netcoreappM.N`, fails the run naming
   * that file, even when a valid project file follows it.
   */
  lemma MalformedFirstProject(stack: string)
    ensures RunDetect(AtRoot(stack), AppWith([Entry("a.csproj", None), Entry(AppCsproj, Some(PlainProject))]))
      == Fail(MalformedProject("/app/a.csproj"))
    ensures RunDetect(AtRoot(stack), AppWith([Entry("a.csproj", Some(Net48Project)), Entry(AppCsproj, Some(PlainProject))]))
      == Fail(MalformedProject("/app/a.csproj"))
  {
    assert IsProjFile("a.csproj") by { assert "a.csproj"[1..] == CSharpExtension; }
    assert JoinPath(AppRoot, "a.csproj") == "/app/a.csproj";
    assert ParseProject(Net48Project).Failure? by { assert !StartsWith("net48", TargetFrameworkPrefix); }
    var after := [Entry(AppCsproj, Some(PlainProject))];
    assert [] + [Entry("a.csproj", None)] + after == [Entry("a.csproj", None)] + after;
    LaterEntriesIgnored(AtRoot(stack), AppWith([]), AppRoot, [], Entry("a.csproj", None), after);
    assert [] + [Entry("a.csproj", Some(Net48Project))] + after == [Entry("a.csproj", Some(Net48Project))] + after;
    LaterEntriesIgnored(AtRoot(stack), AppWith([]), AppRoot, [], Entry("a.csproj", Some(Net48Project)), after);
  }

  /** An application without project files fails with "no proj file found". */
  lemma NoProjectFile(stack: string, files: seq<Entry>)
    requires forall i :: 0 <= i < |files| ==> !IsProjFile(files[i].name)
    ensures var o := RunDetect(AtRoot(stack), AppWith(files));
      o == Fail(NoProjFileFound) && StatusOf(o) == FailStatus && ErrorText(o.error) == "no proj file found"
  {
    NoProjFileIffFails(AtRoot(stack), AppWith(files));
    assert forall e :: e in files ==> !IsProjFile(e.name);
  }
}
