/**
 * The detect phase of the .NET Core build buildpack: choose the scan root
 * (the application root, or the `dotnet-build.project-path` of
 * buildpack.yml under it), take the first project file found there, read its
 * signals and assemble the build plan, or fail.
 */
module Detect {
  import opened Wrappers
  import opened Text
  import opened Versions
  import opened Descriptor
  import opened BuildPlan

  /** The three recognised project-file kinds. */
  datatype ProjKind = CSharp | FSharp | VisualBasic

  const CSharpExtension: string := ".csproj"
  const FSharpExtension: string := ".fsproj"
  const VisualBasicExtension: string := ".vbproj"

  function ProjKindOf(name: string): (k: Option<ProjKind>)
    ensures k == Some(CSharp) <==> EndsWith(name, CSharpExtension)
    ensures k == Some(FSharp) <==> EndsWith(name, FSharpExtension)
    ensures k == Some(VisualBasic) <==> EndsWith(name, VisualBasicExtension)
  {
    if EndsWith(name, CSharpExtension) then Some(CSharp)
    else if EndsWith(name, FSharpExtension) then Some(FSharp)
    else if EndsWith(name, VisualBasicExtension) then Some(VisualBasic)
    else None
  }

  predicate IsProjFile(name: string) {
    ProjKindOf(name).Some?
  }

  /** One directory entry; `None` content is a file whose markup cannot be read. */
  datatype Entry = Entry(name: string, content: Option<ProjectFile>)

  /** Directory listings in enumeration order; a directory not in the map lists nothing. */
  type FileSystem = map<string, seq<Entry>>

  function Listing(fs: FileSystem, dir: string): seq<Entry> {
    if dir in fs then fs[dir] else []
  }

  /** The content of buildpack.yml as far as detection is concerned. */
  datatype Config = NoConfig | ProjectPath(path: string) | Undecodable

  /** The inputs of one detection run. */
  datatype Context = Context(appRoot: string, config: Config, stack: string)

  datatype DetectError = NoProjFileFound | MalformedProject(path: string) | ConfigurationError

  /** The run's result: pass with a plan, or fail with an error and no plan. */
  datatype Outcome = Pass(plan: Plan) | Fail(error: DetectError)

  datatype Status = PassStatus | FailStatus

  function StatusOf(o: Outcome): Status {
    if o.Pass? then PassStatus else FailStatus
  }

  const NoProjFileMessage: string := "no proj file found"

  function ErrorText(e: DetectError): string {
    match e
    case NoProjFileFound => NoProjFileMessage
    case MalformedProject(path) => "unable to read project file " + path
    case ConfigurationError => "unable to read buildpack.yml"
  }

  /** A path under a directory; the empty sub-path names the directory itself. */
  function JoinPath(dir: string, sub: string): string {
    if sub == "" then dir else dir + "/" + sub
  }

  /** The directory scanned for project files. */
  function ScanRoot(ctx: Context): (r: Result<string, DetectError>)
    ensures r.Failure? <==> ctx.config == Undecodable
    ensures r.Failure? ==> r.error == ConfigurationError
    ensures ctx.config == NoConfig ==> r == Success(ctx.appRoot)
    ensures ctx.config == ProjectPath("") ==> r == Success(ctx.appRoot)
    ensures ctx.config.ProjectPath? && ctx.config.path != "" ==>
      r.Success? && StartsWith(r.value, ctx.appRoot + "/") && r.value[|ctx.appRoot| + 1..] == ctx.config.path
  {
    match ctx.config
    case NoConfig => Success(ctx.appRoot)
    case ProjectPath(p) => Success(JoinPath(ctx.appRoot, p))
    case Undecodable => Failure(ConfigurationError)
  }

  /** The index of the first entry that is a project file, if any. */
  function FindProjFile(entries: seq<Entry>): (r: Option<nat>)
    ensures r.None? <==> forall i :: 0 <= i < |entries| ==> !IsProjFile(entries[i].name)
    ensures r.Some? ==> r.value < |entries| && IsProjFile(entries[r.value].name)
    ensures r.Some? ==> forall i :: 0 <= i < r.value ==> !IsProjFile(entries[i].name)
  {
    if |entries| == 0 then None
    else if IsProjFile(entries[0].name) then Some(0)
    else match FindProjFile(entries[1..])
      case None => None
      case Some(k) => Some(k + 1)
  }

  /**
   * Detection once the authoritative project file (at path) has been chosen:
   * it passes with the project's plan when the file is readable and parses,
   * and otherwise fails naming that file.
   */
  function DetectProject(path: string, content: Option<ProjectFile>, stack: string): (r: Outcome)
    ensures r.Pass? <==> content.Some? && ParseProject(content.value).Success?
    ensures r.Pass? ==> r.plan == Assemble(ParseProject(content.value).value, stack)
    ensures r.Fail? ==> r.error == MalformedProject(path)
  {
    match content
    case None => Fail(MalformedProject(path))
    case Some(p) =>
      match ParseProject(p)
      case Failure(_) => Fail(MalformedProject(path))
      case Success(d) => Pass(Assemble(d, stack))
  }

  /**
   * The detect run: choose the scan root, take the first project file listed
   * there and detect with it. An undecodable buildpack.yml is a configuration
   * error, and only that is.
   */
  function RunDetect(ctx: Context, fs: FileSystem): (r: Outcome)
    ensures r == Fail(ConfigurationError) <==> ctx.config == Undecodable
    ensures r.Pass? ==> ScanRoot(ctx).Success? && FindProjFile(Listing(fs, ScanRoot(ctx).value)).Some?
  {
    match ScanRoot(ctx)
    case Failure(e) => Fail(e)
    case Success(root) =>
      var listing := Listing(fs, root);
      match FindProjFile(listing)
      case None => Fail(NoProjFileFound)
      case Some(k) => DetectProject(JoinPath(root, listing[k].name), listing[k].content, ctx.stack)
  }

  /**
   * Detection fails with "no proj file found" exactly when the scan root
   * holds no file with a recognised extension; the run then has fail status
   * and no plan.
   */
  lemma NoProjFileIffFails(ctx: Context, fs: FileSystem)
    ensures RunDetect(ctx, fs) == Fail(NoProjFileFound) <==>
      ScanRoot(ctx).Success? &&
      forall e :: e in Listing(fs, ScanRoot(ctx).value) ==> !IsProjFile(e.name)
    ensures RunDetect(ctx, fs) == Fail(NoProjFileFound) ==>
      StatusOf(RunDetect(ctx, fs)) == FailStatus && ErrorText(RunDetect(ctx, fs).error) == "no proj file found"
  {
    match ScanRoot(ctx)
    case Failure(_) =>
    case Success(root) =>
      var listing := Listing(fs, root);
      if k :| 0 <= k < |listing| && IsProjFile(listing[k].name) {
        assert listing[k] in listing;
        var j := FindProjFile(listing).value;
        assert DetectProject(JoinPath(root, listing[j].name), listing[j].content, ctx.stack) != Fail(NoProjFileFound);
      } else {
        forall e | e in listing ensures !IsProjFile(e.name) {
          var i :| 0 <= i < |listing| && listing[i] == e;
        }
      }
  }

  /**
   * Once a project file has been chosen, the run fails naming it exactly
   * when it cannot be read or does not parse.
   */
  lemma MalformedProjectFails(ctx: Context, fs: FileSystem, root: string, k: nat)
    requires ScanRoot(ctx) == Success(root)
    requires FindProjFile(Listing(fs, root)) == Some(k)
    ensures var e := Listing(fs, root)[k];
      RunDetect(ctx, fs) == Fail(MalformedProject(JoinPath(root, e.name))) <==>
        e.content.None? || ParseProject(e.content.value).Failure?
    ensures RunDetect(ctx, fs).Fail? ==> StatusOf(RunDetect(ctx, fs)) == FailStatus
  {
  }

  /**
   * First found wins: whatever follows the first project file in the
   * listing, whether more project files of the same kind, of other kinds or
   * anything else, has no influence on the outcome.
   */
  lemma {:induction false} FirstProjFileDecides(entries: seq<Entry>, chosen: Entry, rest: seq<Entry>)
    requires forall i :: 0 <= i < |entries| ==> !IsProjFile(entries[i].name)
    requires IsProjFile(chosen.name)
    ensures FindProjFile(entries + [chosen] + rest) == Some(|entries|)
    decreases |entries|
  {
    if |entries| > 0 {
      assert (entries + [chosen] + rest)[1..] == entries[1..] + [chosen] + rest;
      FirstProjFileDecides(entries[1..], chosen, rest);
    }
  }

  lemma LaterEntriesIgnored(ctx: Context, fs: FileSystem, root: string,
                            before: seq<Entry>, chosen: Entry, after: seq<Entry>)
    requires ScanRoot(ctx) == Success(root)
    requires forall i :: 0 <= i < |before| ==> !IsProjFile(before[i].name)
    requires IsProjFile(chosen.name)
    ensures RunDetect(ctx, fs[root := before + [chosen] + after]) ==
      DetectProject(JoinPath(root, chosen.name), chosen.content, ctx.stack)
  {
    FirstProjFileDecides(before, chosen, after);
  }

  /** A scan root whose first entry is a project file that parses yields that project's plan. */
  lemma FirstProjectPasses(ctx: Context, root: string, entries: seq<Entry>, p: ProjectFile, d: ProjectDescriptor)
    requires ScanRoot(ctx) == Success(root)
    requires |entries| > 0 && IsProjFile(entries[0].name) && entries[0].content == Some(p)
    requires ParseProject(p) == Success(d)
    ensures RunDetect(ctx, map[root := entries]) == Pass(Assemble(d, ctx.stack))
  {
    assert Listing(map[root := entries], root) == entries;
  }

  /**
   * A project-path override replaces the scan root: the run is the run of an
   * application rooted at that sub-directory without an override.
   */
  lemma OverrideRedirectsScanRoot(ctx: Context, fs: FileSystem, path: string)
    ensures RunDetect(ctx.(config := ProjectPath(path)), fs) ==
      RunDetect(Context(JoinPath(ctx.appRoot, path), NoConfig, ctx.stack), fs)
  {
  }

  /**
   * Every passing plan provides publish, names each component once, and
   * requires publish (build only), an SDK pinned to patch 0 and a runtime.
   */
  lemma PassingPlanShape(ctx: Context, fs: FileSystem)
    requires RunDetect(ctx, fs).Pass?
    ensures var p := RunDetect(ctx, fs).plan;
      && p.provisions == [Publish]
      && DistinctNames(p.requirements)
      && Lookup(p.requirements, Publish) == Some(Required(Publish, None, BuildOnly))
      && Lookup(p.requirements, DotnetSdk).Some?
      && Lookup(p.requirements, DotnetSdk).value.metadata == BuildAndLaunch
      && Lookup(p.requirements, DotnetRuntime).Some?
      && var sdk := Lookup(p.requirements, DotnetSdk).value.version;
         sdk.Some? && ParseConstraint(sdk.value).Some? && ParseConstraint(sdk.value).value.patch == Exact(0)
  {
    var root := ScanRoot(ctx).value;
    var listing := Listing(fs, root);
    var k := FindProjFile(listing).value;
    var d := ParseProject(listing[k].content.value).value;
    AssembleRequirements(d, ctx.stack);
  }
}
