/**
 * `getNewVersion` of `scripts/update-version.js`: a `major.minor.patch`
 * version string is split on `.`, each piece converted with JavaScript's
 * `Number`, one of the three incremented (resetting those after it), and
 * the three values written back joined by `.`. A bump type other than
 * `major`, `minor` or `patch` throws.
 */
module VersionBump {
  import opened Wrappers
  import opened Text

  /**
   * The JavaScript value a version component holds: a number, `NaN` for a
   * piece `Number` cannot read, or `undefined` for a piece the version
   * string does not have.
   */
  datatype Component = Num(value: int) | NaN | Undefined

  /**
   * `Number(s)` on a decimal string: surrounding whitespace is ignored, an
   * empty (or all-whitespace) string is 0, a signed decimal integer is its
   * value, and anything else is `NaN`.
   */
  function ToNumber(s: string): (c: Component)
    ensures c != Undefined
    ensures Trim(s) == [] ==> c == Num(0)
    ensures c.Num? && Trim(s) != [] ==> ParseInteger(Trim(s)) == Some(c.value)
    ensures Trim(s) != [] ==> (c.Num? <==> ParseInteger(Trim(s)).Some?)
  {
    var t := Trim(s);
    if t == [] then Num(0)
    else match ParseInteger(t)
      case Some(n) => Num(n)
      case None => NaN
  }

  /** `c += 1`: `NaN` and `undefined` both give `NaN`. */
  function Increment(c: Component): (r: Component)
    ensures c.Num? <==> r.Num?
    ensures c.Num? ==> r.value == c.value + 1
    ensures !c.Num? ==> r == NaN
  {
    match c
    case Num(n) => Num(n + 1)
    case _ => NaN
  }

  /** How a component appears in a template literal. */
  function Show(c: Component): string {
    match c
    case Num(n) => IntToString(n)
    case NaN => "NaN"
    case Undefined => "undefined"
  }

  /** The template `${major}.${minor}.${patch}`. */
  function Format(major: Component, minor: Component, patch: Component): string {
    Show(major) + "." + Show(minor) + "." + Show(patch)
  }

  /** `let [major, minor, patch] = version.split(".").map(Number)`. */
  function Components(version: string): (r: (Component, Component, Component))
    ensures r.0 != Undefined
    ensures var parts := Split(version, '.');
      && (r.1 == Undefined <==> |parts| < 2)
      && (r.2 == Undefined <==> |parts| < 3)
  {
    var parts := Split(version, '.');
    (ToNumber(parts[0]),
     if |parts| > 1 then ToNumber(parts[1]) else Undefined,
     if |parts| > 2 then ToNumber(parts[2]) else Undefined)
  }

  datatype Bump = Major | Minor | Patch

  /** The bump type by name; only the three exact names are known. */
  function ParseBump(bumpType: string): (r: Option<Bump>)
    ensures r.Some? <==> bumpType in {"major", "minor", "patch"}
    ensures r == Some(Major) <==> bumpType == "major"
    ensures r == Some(Minor) <==> bumpType == "minor"
    ensures r == Some(Patch) <==> bumpType == "patch"
  {
    if bumpType == "major" then Some(Major)
    else if bumpType == "minor" then Some(Minor)
    else if bumpType == "patch" then Some(Patch)
    else None
  }

  /** `process.argv[2] || "patch"`: a missing or empty argument means a patch bump. */
  function BumpArgument(arg: Option<string>): (t: string)
    ensures arg.None? || arg == Some("") ==> t == "patch"
    ensures arg.Some? && arg.value != "" ==> t == arg.value
  {
    if arg.None? || arg.value == "" then "patch" else arg.value
  }

  const InvalidBumpType := "Invalid version bump type. Use 'major', 'minor', or 'patch'."

  /** `getNewVersion(version, type)`; the thrown error is `Err`. */
  function GetNewVersion(version: string, bumpType: string): (r: Result<string, string>)
    ensures r.Err? <==> ParseBump(bumpType).None?
    ensures r.Err? ==> r.error == InvalidBumpType
  {
    var (major, minor, patch) := Components(version);
    match ParseBump(bumpType)
    case None => Err(InvalidBumpType)
    case Some(Major) => Ok(Format(Increment(major), Num(0), Num(0)))
    case Some(Minor) => Ok(Format(major, Increment(minor), Num(0)))
    case Some(Patch) => Ok(Format(major, minor, Increment(patch)))
  }

  /** A well-formed version: three non-negative integers. */
  datatype Version = Version(major: nat, minor: nat, patch: nat)

  function Render(v: Version): string {
    Format(Num(v.major), Num(v.minor), Num(v.patch))
  }

  /** The ordering of versions: by major, then minor, then patch. */
  predicate Less(v: Version, w: Version) {
    v.major < w.major
    || (v.major == w.major && v.minor < w.minor)
    || (v.major == w.major && v.minor == w.minor && v.patch < w.patch)
  }

  /** The version one bump of kind `b` after `v`. */
  function Bumped(v: Version, b: Bump): (w: Version)
    ensures Less(v, w)
  {
    match b
    case Major => Version(v.major + 1, 0, 0)
    case Minor => Version(v.major, v.minor + 1, 0)
    case Patch => Version(v.major, v.minor, v.patch + 1)
  }

  /** A number's digits hold no `.`, and `Number` reads them back. */
  lemma ReadRendered(n: nat)
    ensures '.' !in IntToString(n)
    ensures ToNumber(IntToString(n)) == Num(n)
  {
    var s := IntToString(n);
    assert AllDigits(s);
    assert !IsDigit('.');
    RenderedIntIsTrimmed(n);
    TrimPadded([], s, []);
    assert [] + s + [] == s;
    ParseRenderInteger(n);
  }

  /** The template's text, as the three pieces joined by `.`. */
  lemma FormatJoins(a: string, b: string, c: string)
    ensures a + "." + b + "." + c == Join([a, b, c], ".")
  {
    assert [a, b, c][1..] == [b, c] && [b, c][1..] == [c];
    assert Join([b, c], ".") == b + "." + c;
    assert Join([a, b, c], ".") == a + "." + (b + "." + c);
  }

  /** Splitting a rendered version on `.` gives the three numbers' digits. */
  lemma SplitRender(v: Version)
    ensures Split(Render(v), '.') == [IntToString(v.major), IntToString(v.minor), IntToString(v.patch)]
  {
    var a, b, c := IntToString(v.major), IntToString(v.minor), IntToString(v.patch);
    ReadRendered(v.major);
    ReadRendered(v.minor);
    ReadRendered(v.patch);
    FormatJoins(a, b, c);
    SplitJoin([a, b, c], '.');
  }

  /** Reading a rendered version gives its three numbers. */
  lemma ComponentsOfRender(v: Version)
    ensures Components(Render(v)) == (Num(v.major), Num(v.minor), Num(v.patch))
  {
    SplitRender(v);
    ReadRendered(v.major);
    ReadRendered(v.minor);
    ReadRendered(v.patch);
  }

  /**
   * On a well-formed version, each known bump type gives the rendering of
   * the bumped version, which is greater and reads back as itself; any
   * other type is an error.
   */
  lemma NewVersionIsGreater(v: Version, bumpType: string)
    ensures ParseBump(bumpType).None? ==> GetNewVersion(Render(v), bumpType) == Err(InvalidBumpType)
    ensures ParseBump(bumpType).Some? ==>
      var w := Bumped(v, ParseBump(bumpType).value);
      && GetNewVersion(Render(v), bumpType) == Ok(Render(w))
      && Less(v, w)
      && Components(Render(w)) == (Num(w.major), Num(w.minor), Num(w.patch))
  {
    var s := Render(v);
    ComponentsOfRender(v);
    match ParseBump(bumpType)
    case None =>
    case Some(b) =>
      var w := Bumped(v, b);
      ComponentsOfRender(w);
      var (major, minor, patch) := (Num(v.major), Num(v.minor), Num(v.patch));
      match b
      case Major =>
        assert bumpType == "major" && Increment(major) == Num(w.major);
      case Minor =>
        assert bumpType == "minor" && Increment(minor) == Num(w.minor);
      case Patch =>
        assert bumpType == "patch" && Increment(patch) == Num(w.patch);
  }

  /** Without an argument the script bumps the patch number. */
  lemma DefaultIsPatch(v: Version, arg: Option<string>)
    requires arg.None? || arg == Some("")
    ensures GetNewVersion(Render(v), BumpArgument(arg)) == Ok(Render(Version(v.major, v.minor, v.patch + 1)))
  {
    assert BumpArgument(arg) == "patch" && ParseBump("patch") == Some(Patch);
    NewVersionIsGreater(v, "patch");
    assert Bumped(v, Patch) == Version(v.major, v.minor, v.patch + 1);
  }
}
