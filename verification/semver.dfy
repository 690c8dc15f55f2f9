/**
 * The slice of the semantic-versioning library the tool relies on: a
 * version's numbers, pre-release and metadata, its string form, the three
 * increments and setting the pre-release identifier. Parsing a version
 * string is the library's business and stays an input.
 */
module Semver {
  import opened Wrappers
  import opened Strconv

  datatype Version = Version(major: nat, minor: nat, patch: nat, pre: string, metadata: string)

  /** Version.String: "major.minor.patch", then "-pre" and "+metadata" when they are set. */
  function VersionString(v: Version): (r: string)
    ensures |r| >= 5 && r[0] != 'v'
  {
    Itoa(v.major) + "." + Itoa(v.minor) + "." + Itoa(v.patch) +
    (if v.pre != "" then "-" + v.pre else "") +
    (if v.metadata != "" then "+" + v.metadata else "")
  }

  /** The numeric part of a version compared component by component. */
  predicate CoreLess(a: Version, b: Version) {
    a.major < b.major ||
    (a.major == b.major && (a.minor < b.minor || (a.minor == b.minor && a.patch < b.patch)))
  }

  function IncMajor(v: Version): (r: Version)
    ensures r.major == v.major + 1 && r.minor == 0 && r.patch == 0 && r.pre == "" && r.metadata == ""
  {
    Version(v.major + 1, 0, 0, "", "")
  }

  function IncMinor(v: Version): (r: Version)
    ensures r.major == v.major && r.minor == v.minor + 1 && r.patch == 0 && r.pre == "" && r.metadata == ""
  {
    Version(v.major, v.minor + 1, 0, "", "")
  }

  /** Equal major, minor and patch numbers. */
  predicate SameCore(a: Version, b: Version) {
    a.major == b.major && a.minor == b.minor && a.patch == b.patch
  }

  /**
   * Precedence as far as the increments need it: the numbers decide, and
   * with equal numbers a pre-release comes before its release. Metadata
   * plays no part; the order among pre-release identifiers is not modelled.
   */
  predicate LowerPrecedence(a: Version, b: Version) {
    CoreLess(a, b) || (SameCore(a, b) && a.pre != "" && b.pre == "")
  }

  /**
   * IncPatch: a pre-release becomes its own release, any other version
   * gets the next patch number; pre-release and metadata are dropped. The
   * result is the first release with the same major and minor numbers that
   * comes after the version.
   */
  function IncPatch(v: Version): (r: Version)
    ensures r.major == v.major && r.minor == v.minor && r.pre == "" && r.metadata == ""
    ensures LowerPrecedence(v, r)
    ensures forall w: Version :: w.pre == "" && w.major == v.major && w.minor == v.minor && LowerPrecedence(v, w) ==> r.patch <= w.patch
  {
    if v.pre != "" then Version(v.major, v.minor, v.patch, "", "")
    else Version(v.major, v.minor, v.patch + 1, "", "")
  }

  /** The library's error for a pre-release identifier it refuses. */
  const InvalidPrerelease := "Invalid Prerelease string"

  /**
   * Version.SetPrerelease: an empty identifier clears the pre-release and
   * is always accepted; whether a non-empty one is acceptable is the
   * library's verdict, passed in as `valid`. The numbers and metadata are kept.
   */
  function SetPrerelease(v: Version, pre: string, valid: bool): (r: Result<Version>)
    ensures r.Ok? <==> pre == "" || valid
    ensures r.Ok? ==> r.value == v.(pre := pre)
    ensures r.Err? ==> r.msg == InvalidPrerelease
  {
    if pre == "" || valid then Ok(v.(pre := pre)) else Err(InvalidPrerelease)
  }
}
