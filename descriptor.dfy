/**
 * The project descriptor (`.csproj`, `.fsproj`, `.vbproj`) as the detect
 * phase sees it. The markup itself is not parsed here: a project file is the
 * record of element and attribute texts the phase consults, in document
 * order, and this module turns that record into the signals used for
 * version resolution.
 */
module Descriptor {
  import opened Wrappers
  import opened Text
  import opened Versions

  /** The texts a project file offers to detection, in document order. */
  datatype ProjectFile = ProjectFile(
    sdk: string,                             // the Sdk attribute of <Project>
    targetFrameworks: seq<string>,           // <TargetFramework> texts
    runtimeFrameworkVersions: seq<string>,   // <RuntimeFrameworkVersion> texts
    execCommands: seq<string>,               // Command attributes of <Exec> actions
    packageReferences: seq<string>)          // Include attributes of <PackageReference>

  datatype SdkKind = StandardSdk | WebSdk

  /** The signals one authoritative project file yields. */
  datatype ProjectDescriptor = ProjectDescriptor(
    sdkKind: SdkKind,
    framework: Framework,
    runtimeFrameworkVersion: Option<string>,
    hasNpmInstall: bool)

  datatype ParseError = MissingTargetFramework | UnrecognizedTargetFramework(text: string)

  const StandardSdkName: string := "Microsoft.NET.Sdk"
  const WebSdkName: string := "Microsoft.NET.Sdk.Web"
  const WebSdkSuffix: string := ".Web"
  const NpmInstall: string := "npm install"

  /** The web SDK is recognised by the suffix of the Sdk attribute. */
  function ClassifySdk(sdk: string): (k: SdkKind)
    ensures sdk == WebSdkName ==> k == WebSdk
    ensures sdk == StandardSdkName ==> k == StandardSdk
    ensures k == WebSdk <==> EndsWith(sdk, WebSdkSuffix)
  {
    if EndsWith(sdk, WebSdkSuffix) then WebSdk else StandardSdk
  }

  lemma ClassifyKnownSdks()
    ensures ClassifySdk(StandardSdkName) == StandardSdk
    ensures ClassifySdk(WebSdkName) == WebSdk
  {
    assert StandardSdkName[|StandardSdkName| - |WebSdkSuffix|..] != WebSdkSuffix;
    assert WebSdkName[|WebSdkName| - |WebSdkSuffix|..] == WebSdkSuffix;
  }

  /** Some build action runs `npm install` (a case-sensitive substring test). */
  function HasNpmInstall(commands: seq<string>): (b: bool)
    ensures b <==> exists i :: 0 <= i < |commands| && Contains(commands[i], NpmInstall)
  {
    if |commands| == 0 then false
    else Contains(commands[0], NpmInstall) || HasNpmInstall(commands[1..])
  }

  /** The first RuntimeFrameworkVersion text; an empty text pins nothing. */
  function FirstRuntimePin(texts: seq<string>): Option<string> {
    if |texts| > 0 && texts[0] != "" then Some(texts[0]) else None
  }

  /** A descriptor as parsing produces it: a runtime pin is never the empty text. */
  predicate ValidDescriptor(d: ProjectDescriptor) {
    d.runtimeFrameworkVersion != Some("")
  }

  /**
   * The descriptor of a project file: the first target framework must be a
   * `netcoreappM.N` moniker; the first runtime framework version, if any and
   * not empty, is kept verbatim; package references play no part.
   */
  function ParseProject(p: ProjectFile): (r: Result<ProjectDescriptor, ParseError>)
    ensures r.Success? <==>
      |p.targetFrameworks| > 0 && ParseTargetFramework(p.targetFrameworks[0]).Some?
    ensures r.Success? ==> (r.value.sdkKind == WebSdk <==> EndsWith(p.sdk, WebSdkSuffix))
    ensures r.Success? ==> ParseTargetFramework(p.targetFrameworks[0]) == Some(r.value.framework)
    ensures r.Success? ==> ValidDescriptor(r.value)
    ensures r.Success? ==>
      (r.value.runtimeFrameworkVersion.Some? <==> |p.runtimeFrameworkVersions| > 0 && p.runtimeFrameworkVersions[0] != "")
    ensures r.Success? && r.value.runtimeFrameworkVersion.Some? ==>
      r.value.runtimeFrameworkVersion.value == p.runtimeFrameworkVersions[0]
    ensures r.Success? ==>
      (r.value.hasNpmInstall <==> exists i :: 0 <= i < |p.execCommands| && Contains(p.execCommands[i], NpmInstall))
  {
    if |p.targetFrameworks| == 0 then Failure(MissingTargetFramework)
    else
      match ParseTargetFramework(p.targetFrameworks[0])
      case None => Failure(UnrecognizedTargetFramework(p.targetFrameworks[0]))
      case Some(f) =>
        Success(ProjectDescriptor(
          ClassifySdk(p.sdk),
          f,
          FirstRuntimePin(p.runtimeFrameworkVersions),
          HasNpmInstall(p.execCommands)))
  }

  /** A representative project file exhibiting exactly the signals of d. */
  function ProjectFileOf(d: ProjectDescriptor): ProjectFile {
    ProjectFile(
      if d.sdkKind == WebSdk then WebSdkName else StandardSdkName,
      [FormatTargetFramework(d.framework)],
      match d.runtimeFrameworkVersion
      case Some(v) => [v]
      case None => [],
      if d.hasNpmInstall then [NpmInstall] else [],
      [])
  }

  /** Parsing the representative project file of a descriptor gives the descriptor back. */
  lemma ParseProjectFileOf(d: ProjectDescriptor)
    requires ValidDescriptor(d)
    ensures ParseProject(ProjectFileOf(d)) == Success(d)
  {
    var p := ProjectFileOf(d);
    ParseFormatTargetFramework(d.framework);
    assert ClassifySdk(p.sdk) == d.sdkKind by { ClassifyKnownSdks(); }
    assert HasNpmInstall(p.execCommands) == d.hasNpmInstall by {
      if d.hasNpmInstall {
        assert StartsWith(NpmInstall, NpmInstall);
        assert Contains(p.execCommands[0], NpmInstall);
      }
    }
    assert FirstRuntimePin(p.runtimeFrameworkVersions) == d.runtimeFrameworkVersion;
  }

  /** Package references never influence the descriptor. */
  lemma ParseIgnoresPackageReferences(p: ProjectFile, refs: seq<string>)
    ensures ParseProject(p.(packageReferences := refs)) == ParseProject(p)
  {
  }
}
