/**
 * Version strings of the detect phase: the `netcoreappM.N` target-framework
 * moniker of a project file, and the `M.N.P` / `M.N.*` constraints written
 * into the build plan.
 */
module Versions {
  import opened Wrappers
  import opened Text

  /** The major.minor pair named by a `netcoreappM.N` moniker. */
  datatype Framework = Framework(major: nat, minor: nat)

  const TargetFrameworkPrefix: string := "netcoreapp"

  function FormatTargetFramework(f: Framework): string {
    TargetFrameworkPrefix + Join([NatToString(f.major), NatToString(f.minor)], '.')
  }

  /**
   * Extracts (M, N) from `netcoreappM.N`; any other text (another prefix, a
   * missing or extra component, a non-numeric component) is not a target
   * framework this phase understands.
   */
  function ParseTargetFramework(s: string): (r: Option<Framework>)
    ensures r.Some? ==> StartsWith(s, TargetFrameworkPrefix)
  {
    if !StartsWith(s, TargetFrameworkPrefix) then None
    else
      var parts := Split(s[|TargetFrameworkPrefix|..], '.');
      if |parts| != 2 then None
      else
        match (ParseNat(parts[0]), ParseNat(parts[1]))
        case (Some(m), Some(n)) => Some(Framework(m, n))
        case _ => None
  }

  /** Every moniker this model writes is read back as the pair it was written from. */
  lemma ParseFormatTargetFramework(f: Framework)
    ensures ParseTargetFramework(FormatTargetFramework(f)) == Some(f)
  {
    var body := [NatToString(f.major), NatToString(f.minor)];
    var s := FormatTargetFramework(f);
    assert s[..|TargetFrameworkPrefix|] == TargetFrameworkPrefix;
    assert s[|TargetFrameworkPrefix|..] == Join(body, '.');
    SplitJoin(body, '.');
    ParseNatOfNatToString(f.major);
    ParseNatOfNatToString(f.minor);
  }

  /**
   * A moniker that is accepted and written without leading zeros is exactly
   * the rendering of the pair it denotes.
   */
  lemma TargetFrameworkIsFormatted(s: string)
    requires ParseTargetFramework(s).Some?
    requires forall p :: p in Split(s[|TargetFrameworkPrefix|..], '.') ==> IsCanonicalNumeral(p)
    ensures s == FormatTargetFramework(ParseTargetFramework(s).value)
  {
    var rest := s[|TargetFrameworkPrefix|..];
    var parts := Split(rest, '.');
    assert parts[0] in parts && parts[1] in parts;
    NatToStringOfDigitsValue(parts[0]);
    NatToStringOfDigitsValue(parts[1]);
    JoinSplit(rest, '.');
    assert parts == [parts[0], parts[1]];
    assert s == TargetFrameworkPrefix + rest;
  }

  /** The patch component of a version constraint: a fixed number or `*`. */
  datatype Patch = Exact(n: nat) | AnyPatch

  /** A `major.minor.patch` version constraint as written into the build plan. */
  datatype Constraint = Constraint(major: nat, minor: nat, patch: Patch)

  function PatchString(p: Patch): string {
    match p
    case Exact(n) => NatToString(n)
    case AnyPatch => "*"
  }

  function FormatConstraint(c: Constraint): string {
    Join([NatToString(c.major), NatToString(c.minor), PatchString(c.patch)], '.')
  }

  function ParsePatch(s: string): Option<Patch> {
    if s == "*" then Some(AnyPatch)
    else match ParseNat(s)
      case Some(n) => Some(Exact(n))
      case None => None
  }

  /** Reads `M.N.P` or `M.N.*`. */
  function ParseConstraint(s: string): Option<Constraint> {
    var parts := Split(s, '.');
    if |parts| != 3 then None
    else
      match (ParseNat(parts[0]), ParseNat(parts[1]), ParsePatch(parts[2]))
      case (Some(m), Some(n), Some(p)) => Some(Constraint(m, n, p))
      case _ => None
  }

  /** Every `.`-separated part is a numeral without leading zeros, or `*`. */
  predicate IsCanonicalConstraintText(s: string) {
    forall part :: part in Split(s, '.') ==> IsCanonicalNumeral(part) || part == "*"
  }

  lemma FormattedConstraintIsCanonical(c: Constraint)
    ensures IsCanonicalConstraintText(FormatConstraint(c))
  {
    var parts := [NatToString(c.major), NatToString(c.minor), PatchString(c.patch)];
    SplitJoin(parts, '.');
  }

  /**
   * A constraint text that is read as c and written without leading zeros is
   * exactly the text written from c: the reading pins the string.
   */
  lemma ConstraintIsFormatted(s: string, c: Constraint)
    requires ParseConstraint(s) == Some(c) && IsCanonicalConstraintText(s)
    ensures s == FormatConstraint(c)
  {
    var parts := Split(s, '.');
    assert parts[0] in parts && parts[1] in parts && parts[2] in parts;
    NatToStringOfDigitsValue(parts[0]);
    NatToStringOfDigitsValue(parts[1]);
    if parts[2] != "*" {
      NatToStringOfDigitsValue(parts[2]);
    }
    JoinSplit(s, '.');
    assert parts == [parts[0], parts[1], parts[2]];
  }

  lemma ParseFormatConstraint(c: Constraint)
    ensures ParseConstraint(FormatConstraint(c)) == Some(c)
  {
    var parts := [NatToString(c.major), NatToString(c.minor), PatchString(c.patch)];
    SplitJoin(parts, '.');
    ParseNatOfNatToString(c.major);
    ParseNatOfNatToString(c.minor);
    match c.patch
    case Exact(n) =>
      ParseNatOfNatToString(n);
      assert NatToString(n) != "*" by { assert IsDigit(NatToString(n)[0]); }
    case AnyPatch =>
  }

  /** The SDK constraint for a framework: its major and minor, patch pinned to 0. */
  function SdkVersion(f: Framework): (v: string)
    ensures ParseConstraint(v) == Some(Constraint(f.major, f.minor, Exact(0)))
    ensures IsCanonicalConstraintText(v)
  {
    ParseFormatConstraint(Constraint(f.major, f.minor, Exact(0)));
    FormattedConstraintIsCanonical(Constraint(f.major, f.minor, Exact(0)));
    FormatConstraint(Constraint(f.major, f.minor, Exact(0)))
  }

  /** The wildcard constraint for a framework: its major and minor, any patch. */
  function WildcardVersion(f: Framework): (v: string)
    ensures ParseConstraint(v) == Some(Constraint(f.major, f.minor, AnyPatch))
    ensures IsCanonicalConstraintText(v)
  {
    ParseFormatConstraint(Constraint(f.major, f.minor, AnyPatch));
    FormattedConstraintIsCanonical(Constraint(f.major, f.minor, AnyPatch));
    FormatConstraint(Constraint(f.major, f.minor, AnyPatch))
  }

  /**
   * The pinned SDK constraint and the wildcard constraint differ for every
   * framework, and each determines the framework it was made from.
   */
  lemma VersionsDetermineFramework(f: Framework, g: Framework)
    ensures SdkVersion(f) != WildcardVersion(g)
    ensures SdkVersion(f) == SdkVersion(g) ==> f == g
    ensures WildcardVersion(f) == WildcardVersion(g) ==> f == g
  {
  }
}
