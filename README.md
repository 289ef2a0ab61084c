# Detect phase of the .NET Core build buildpack, in Dafny

This project models `runDetect`, the detect phase of the .NET Core build
Cloud Native Buildpack. Its behaviour is taken from what
`cmd/detect/main_test.go` fixes about it. Given an application directory and
its context, detection works in four steps:

1. It picks the scan root. That is the application root, or
   `root/<dotnet-build.project-path>` when `buildpack.yml` sets that key.
2. It takes the first project file found there. A project file ends in
   `.csproj`, `.fsproj` or `.vbproj`.
3. It reads four signals from that file:
   - the `Sdk` attribute (`Microsoft.NET.Sdk` or `Microsoft.NET.Sdk.Web`);
   - the first `TargetFramework` (`netcoreappM.N`);
   - the first `RuntimeFrameworkVersion`, if there is one;
   - whether some `Exec` command contains `npm install`.
4. It passes with a build plan, or fails.

The plan always provides `publish`. It requires these entries, in order:

- `publish` (build);
- the SDK `M.N.0` (build, launch);
- the runtime: the pinned version taken verbatim, or else `M.N.*` (build, launch);
- ASP.NET `M.N.*` (build, launch), for the web SDK only;
- node, unversioned (build, launch), when `npm install` is run;
- ICU, unversioned and build only, on the `io.buildpacks.stacks.bionic` stack.

With no project file, detection fails with "no proj file found".

The modules follow the phase's components:

- `Text` (`text.dfy`): decimal numerals, split/join on a separator, prefix, suffix and substring tests.
- `Versions` (`versions.dfy`): the `netcoreappM.N` moniker and the `M.N.P` / `M.N.*` constraints. Each has a parser and a formatter, with round-trip lemmas.
- `Descriptor` (`descriptor.dfy`): the project file as a record of the texts detection consults. It is turned into a `ProjectDescriptor`.
- `Resolver` (`resolver.dfy`): the SDK, runtime and ASP.NET versions.
- `BuildPlan` (`buildplan.dfy`): the plan datatypes and `Assemble`.
- `Detect` (`detect.dfy`): the scan root, project-file selection and the outcome.
- `DetectCases` (`detect_cases.dfy`): each scenario of the test file as a lemma about `RunDetect`.

Everything is a pure function. Running detection twice on the same inputs
gives the same plan, because `RunDetect` is a function of its inputs.

The implementation of `runDetect` is not part of this model. The behaviour
modelled is what `cmd/detect/main_test.go` asserts. Some choices the tests
leave open were made here:

- The web SDK is recognised by the suffix `.Web` of the `Sdk` attribute.
- The node entry sits after ASP.NET and before ICU. The tests only check that it is present.
- An unreadable project file, or one without a usable `netcoreappM.N` target framework, fails the run as a malformed project (`Detect.MalformedProjectFails`).
- An unreadable `buildpack.yml` fails the run as a configuration error (`Detect.RunDetect`).
- An empty `RuntimeFrameworkVersion` text pins nothing, as a missing one does.
- Only the scan root itself is searched. A project file in a sub-directory is found only through `project-path` (`DetectCases.NestedProjectNeedsOverride`).
- A `.vbproj` file is a project file on its own, like `.csproj` and `.fsproj` (`Detect.ProjKindOf`).

The scenario at `cmd/detect/main_test.go:400` is titled "that are the
differnt types it fails". Its assertion at line 407 expects the pass status.
The model follows the assertion: mixed project kinds pass
(`DetectCases.MixedKindProjects`). The first project file in the listing
decides the outcome (`Detect.LaterEntriesIgnored`).

## Model

| member | source | states |
|---|---|---|
| `Versions.ParseFormatTargetFramework` | cmd/detect/main_test.go:46 | every `netcoreappM.N` moniker is read back as the pair (M, N) it names |
| `Versions.TargetFrameworkIsFormatted` | cmd/detect/main_test.go:218 | an accepted moniker without leading zeros is exactly `netcoreapp` + M + `.` + N of the pair read from it |
| `Versions.ParseFormatConstraint` | cmd/detect/main_test.go:65-69 | every `M.N.P` or `M.N.*` constraint string is read back as the constraint it was written from |
| `Versions.ConstraintIsFormatted` | cmd/detect/main_test.go:237-248 | a constraint text without leading zeros is exactly the text written from the constraint read from it, so the reading pins the string |
| `Versions.SdkVersion` | cmd/detect/main_test.go:237-240 | the SDK constraint reads as the framework's major and minor with patch pinned to 0, and has no leading zeros |
| `Versions.WildcardVersion` | cmd/detect/main_test.go:241-248 | the wildcard constraint reads as the framework's major and minor with any patch, and has no leading zeros |
| `Versions.VersionsDetermineFramework` | cmd/detect/main_test.go:238-247 | the pinned SDK constraint never equals a wildcard constraint, and each determines its framework |
| `Descriptor.ClassifySdk` | cmd/detect/main_test.go:212-227 | `Microsoft.NET.Sdk.Web` is the web SDK and `Microsoft.NET.Sdk` the plain SDK; in general a project is web exactly when its Sdk attribute ends in `.Web` |
| `Descriptor.ClassifyKnownSdks` | cmd/detect/main_test.go:43 | `Microsoft.NET.Sdk` is the plain SDK and `Microsoft.NET.Sdk.Web` the web SDK |
| `Descriptor.HasNpmInstall` | cmd/detect/main_test.go:127-141 | the client-build signal holds exactly when some Exec command contains `npm install` |
| `Descriptor.ParseProject` | cmd/detect/main_test.go:42-53 | a descriptor exists exactly when the first TargetFramework is a `netcoreappM.N` moniker; it carries that framework, the first RuntimeFrameworkVersion verbatim if there is one and it is not empty, the web kind exactly for a `.Web` Sdk, and the npm signal exactly when a command contains `npm install` |
| `Descriptor.ParseProjectFileOf` | cmd/detect/main_test.go:76-90 | parsing a project file written from the signals of any descriptor without an empty pin gives that descriptor back |
| `Descriptor.ParseIgnoresPackageReferences` | cmd/detect/main_test.go:222-225 | package references never change the descriptor |
| `Resolver.Resolve` | cmd/detect/main_test.go:95-108 | SDK `M.N.0`; the runtime is the pinned version if there is one, else `M.N.*`; ASP.NET `M.N.*` is present exactly for the web SDK; the generated texts have no leading zeros |
| `Resolver.RuntimePinChangesOnlyRuntime` | cmd/detect/main_test.go:76-110 | pinning the runtime changes the runtime constraint and nothing else |
| `BuildPlan.Lookup` | cmd/detect/main_test.go:160-165 | the lookup is absent exactly when no requirement names the component, and otherwise returns such a requirement |
| `BuildPlan.LookupIsFirst` | cmd/detect/main_test.go:160-165 | the requirement the lookup returns is the first one on that component |
| `BuildPlan.Assemble` | cmd/detect/main_test.go:58-72 | the plan provides exactly publish, names every component at most once, and has 3 entries plus one each for web, npm and bionic |
| `BuildPlan.AssembleRequirements` | cmd/detect/main_test.go:276-297 | per component: publish (build) always; SDK and runtime (build, launch) always; ASP.NET exactly for web; unversioned node exactly with npm install; unversioned build-only ICU exactly on bionic |
| `BuildPlan.AssembleLeadingEntries` | cmd/detect/main_test.go:192-206 | the first three requirements are publish, SDK and runtime, and ASP.NET comes right after for the web SDK |
| `BuildPlan.BionicAppendsIcu` | cmd/detect/main_test.go:254-299 | the bionic plan is any other stack's plan with one unversioned build-only ICU entry appended |
| `BuildPlan.StandardPlan` | cmd/detect/main_test.go:58-72 | a plain-SDK project without npm, off bionic, gets exactly publish, SDK and runtime |
| `BuildPlan.WebPlan` | cmd/detect/main_test.go:190-208 | for a web-SDK project without `npm install`, on a stack other than bionic, the requirements are exactly publish, SDK, runtime and ASP.NET `M.N.*` after the runtime |
| `Detect.ProjKindOf` | cmd/detect/main_test.go:353-373 | `.csproj`, `.fsproj` and `.vbproj` names are C#, F# and VB project files |
| `Detect.ScanRoot` | cmd/detect/main_test.go:321-324 | the scan root is the application root without configuration, `root/path` with a non-empty project path, the root itself with an empty one, and a configuration error for an unreadable buildpack.yml |
| `Detect.FindProjFile` | cmd/detect/main_test.go:390-398 | returns the index of the first project file, or none exactly when no entry is a project file |
| `Detect.DetectProject` | cmd/detect/main_test.go:55-58 | the chosen project file passes exactly when it is readable and parses, with the plan assembled from its descriptor; otherwise it fails as a malformed project naming that file |
| `Detect.RunDetect` | cmd/detect/main_test.go:321-329 | the run fails with a configuration error exactly when buildpack.yml is undecodable, and a pass always comes from a project file found under the scan root |
| `Detect.MalformedProjectFails` | cmd/detect/main_test.go:55-57 | a choice of this model, since no test writes a malformed project file; `runDetect` returns an error and a status code: once a project file is chosen, the run fails as a malformed project naming it, with fail status, exactly when the file is unreadable or does not parse |
| `Detect.NoProjFileIffFails` | cmd/detect/main_test.go:411-418 | detection fails with "no proj file found" and fail status exactly when the scan root has no project file |
| `Detect.FirstProjFileDecides` | cmd/detect/main_test.go:390-408 | the first project file after non-project entries is the one chosen, whatever follows it |
| `Detect.LaterEntriesIgnored` | cmd/detect/main_test.go:400-408 | the outcome depends only on the first project file, not on later files of the same or another kind |
| `Detect.FirstProjectPasses` | cmd/detect/main_test.go:55-58 | when the scan root is the only directory and its listing's first entry is a project file that parses, detection passes with that project's plan |
| `Detect.OverrideRedirectsScanRoot` | cmd/detect/main_test.go:301-327 | a project-path override behaves as an application rooted at `root/path` |
| `Detect.PassingPlanShape` | cmd/detect/main_test.go:58-72 | every passing plan provides publish, has distinct names, publish build-only, and an SDK pinned to patch 0 |
| `DetectCases.Netcoreapp22` | cmd/detect/main_test.go:46 | `netcoreapp2.2` gives SDK `2.2.0` and wildcard `2.2.*` |
| `DetectCases.Netcoreapp30` | cmd/detect/main_test.go:218 | `netcoreapp3.0` gives SDK `3.0.0` and wildcard `3.0.*` |
| `DetectCases.RuntimeOnlyProject` | cmd/detect/main_test.go:39-73 | plain-SDK `netcoreapp2.2` passes with exactly [publish, sdk 2.2.0, runtime 2.2.*] |
| `DetectCases.PinnedRuntimeProject` | cmd/detect/main_test.go:76-110 | with RuntimeFrameworkVersion 2.2.7 the runtime is 2.2.7 and the SDK stays 2.2.0 |
| `DetectCases.NpmInstallProject` | cmd/detect/main_test.go:113-168 | an `npm install` Exec passes and requires unversioned node for build and launch |
| `DetectCases.AspNetProject` | cmd/detect/main_test.go:170-210 | web SDK `netcoreapp2.2` passes with [publish, sdk 2.2.0, runtime 2.2.*, aspnet 2.2.*] |
| `DetectCases.SteeltoeWebProject` | cmd/detect/main_test.go:212-252 | web SDK with Steeltoe-only references, `netcoreapp3.0`, passes with sdk 3.0.0, runtime 3.0.*, aspnet 3.0.* |
| `DetectCases.BionicAspNetProject` | cmd/detect/main_test.go:254-299 | on bionic the same project's plan ends with unversioned build-only ICU |
| `DetectCases.ProjectPathOverride` | cmd/detect/main_test.go:301-350 | with project-path `src/proj1`, a project only under `src/proj1` gets the same outcome as at the root |
| `DetectCases.NestedProjectNeedsOverride` | cmd/detect/main_test.go:301-319 | a choice of this model, since the tests run this tree only with the override: without it the tree fails with no project file, because only the scan root is searched |
| `DetectCases.FsprojProject` | cmd/detect/main_test.go:353-373 | an `.fsproj` project passes with its plan |
| `DetectCases.TwoSameKindProjects` | cmd/detect/main_test.go:390-398 | two `.csproj` files pass; with a different second body the plan is still the first file's, which differs from the second's |
| `DetectCases.MixedKindProjects` | cmd/detect/main_test.go:400-408 | a `.csproj` next to a `.vbproj` passes; with a different second body the plan is still the first file's |
| `DetectCases.MalformedFirstProject` | cmd/detect/main_test.go:390-398 | a choice of this model, built on the first-file rule of that scenario: an unreadable first `.csproj`, or one targeting `net48`, fails the run as malformed `/app/a.csproj` even though a valid `.csproj` follows |
| `DetectCases.NoProjectFile` | cmd/detect/main_test.go:411-418 | a root without project files fails with fail status and "no proj file found" |

## Left out

- The MSBuild/XML markup is not parsed. A project file is the record of the texts detection reads from it. `None` content stands for unreadable markup.
- `buildpack.yml` is not decoded as YAML. It is a `Config`: absent, a project path, or undecodable.
- Path cleaning by `filepath.Join` is not modelled. The scan root is `root + "/" + path`, and an empty path is the root itself.
- Real directory enumeration order is not modelled. A listing is a given sequence, and the first project file in it wins.
- Files are written and removed, and directories created, through `ioutil`, `os` and the test factory. None of that file-system I/O is modelled.
- The concrete pass and fail exit codes are not modelled. `Status` has two values.
- The component names imported from the SDK, runtime, ASP.NET, node, ICU and publish buildpacks are not modelled. They are distinct constructors of `Component`.
- Only the text "no proj file found" is fixed by the tests. The texts `ErrorText` gives the other errors are this model's own.
- Major and minor versions are natural numbers. A moniker with leading zeros (`netcoreapp02.2`) is rendered without them in the plan.
- The position of the node entry in the requirements is not pinned by the tests. It is placed after ASP.NET.
- The stack identifier has no default here. The scenarios that do not set the bionic stack are stated for every other stack.
