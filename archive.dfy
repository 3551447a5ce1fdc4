/** The release script (archive.js): bump the patch version in `package.json`
    and `manifest.json`, make sure the archives folder exists, and name the
    zip file after the version. File contents are modelled as parsed JSON
    objects; the zip itself is not modelled. */
module Archive {
  import opened Wrappers
  import opened Decimal

  /** `s.split(sep)` for a one-character separator: always at least one part. */
  function Split(s: string, sep: char): (parts: seq<string>)
    ensures |parts| >= 1
  {
    if s == [] then [""]
    else
      var rest := Split(s[1..], sep);
      if s[0] == sep then [""] + rest
      else [[s[0]] + rest[0]] + rest[1..]
  }

  /** `parts.join(sep)`. */
  function Join(parts: seq<string>, sep: char): string {
    if parts == [] then ""
    else if |parts| == 1 then parts[0]
    else parts[0] + [sep] + Join(parts[1..], sep)
  }

  /** No part of a split contains the separator. */
  lemma {:induction false} SplitPartsLackSep(s: string, sep: char)
    ensures forall i :: 0 <= i < |Split(s, sep)| ==> sep !in Split(s, sep)[i]
  {
    if s != [] {
      SplitPartsLackSep(s[1..], sep);
    }
  }

  lemma {:induction false} JoinCons(first: string, parts: seq<string>, sep: char)
    requires |parts| >= 1
    ensures Join([first] + parts, sep) == first + [sep] + Join(parts, sep)
  {
    assert ([first] + parts)[1..] == parts;
  }

  /** Joining the parts of a split gives the original text back. */
  lemma {:induction false} JoinSplit(s: string, sep: char)
    ensures Join(Split(s, sep), sep) == s
  {
    if s != [] {
      var rest := Split(s[1..], sep);
      JoinSplit(s[1..], sep);
      if s[0] == sep {
        JoinCons("", rest, sep);
      } else if |rest| == 1 {
        assert Split(s, sep) == [[s[0]] + rest[0]];
      } else {
        assert rest == [rest[0]] + rest[1..];
        JoinCons(rest[0], rest[1..], sep);
        JoinCons([s[0]] + rest[0], rest[1..], sep);
      }
      assert s == [s[0]] + s[1..];
    }
  }

  lemma {:induction false} SplitWithoutSep(a: string, sep: char)
    requires sep !in a
    ensures Split(a, sep) == [a]
  {
    if a != [] {
      SplitWithoutSep(a[1..], sep);
      assert a == [a[0]] + a[1..];
    }
  }

  lemma {:induction false} SplitAfterSep(a: string, rest: string, sep: char)
    requires sep !in a
    ensures Split(a + [sep] + rest, sep) == [a] + Split(rest, sep)
  {
    var s := a + [sep] + rest;
    if a == [] {
      assert s[1..] == rest;
    } else {
      assert s[1..] == a[1..] + [sep] + rest;
      SplitAfterSep(a[1..], rest, sep);
      assert a == [a[0]] + a[1..];
    }
  }

  /** Splitting joined parts that do not contain the separator gives the parts back. */
  lemma {:induction false} SplitJoin(parts: seq<string>, sep: char)
    requires |parts| >= 1
    requires forall i :: 0 <= i < |parts| ==> sep !in parts[i]
    ensures Split(Join(parts, sep), sep) == parts
  {
    if |parts| == 1 {
      SplitWithoutSep(parts[0], sep);
    } else {
      SplitJoin(parts[1..], sep);
      SplitAfterSep(parts[0], Join(parts[1..], sep), sep);
      assert parts == [parts[0]] + parts[1..];
    }
  }

  /** The white space `parseInt` skips before the number. */
  predicate IsSpace(c: char) {
    c == ' ' || c == '\t' || c == '\n' || c == '\r' || c == '\U{B}' || c == '\U{C}' || c == '\U{A0}' || c == '\U{FEFF}'
  }

  function TrimStart(s: string): (t: string)
    ensures |t| <= |s|
    ensures t == [] || !IsSpace(t[0])
  {
    if s != [] && IsSpace(s[0]) then TrimStart(s[1..]) else s
  }

  /** White space in front of a text changes nothing `parseInt` reads. */
  lemma {:induction false} ParseIntSkipsSpace(ws: string, s: string)
    requires forall i :: 0 <= i < |ws| ==> IsSpace(ws[i])
    ensures TrimStart(ws + s) == TrimStart(s)
    ensures ParseInt(ws + s) == ParseInt(s)
    decreases |ws|
  {
    if ws != [] {
      assert (ws + s)[1..] == ws[1..] + s;
      ParseIntSkipsSpace(ws[1..], s);
    } else {
      assert ws + s == s;
    }
  }

  /** The longest run of leading digits as a number; `None` when there is none. */
  function LeadingNumber(u: string): Option<nat> {
    var n := LeadingDigits(u);
    if n == 0 then None
    else
      LeadingDigitsSpec(u);
      Some(DigitsValue(u[..n]))
  }

  /** An optional sign followed by the leading digits. */
  function SignedNumber(t: string): Option<int> {
    if t != [] && t[0] == '-' then
      match LeadingNumber(t[1..])
      case Some(v) => Some(0 - v)
      case None => None
    else if t != [] && t[0] == '+' then
      match LeadingNumber(t[1..])
      case Some(v) => Some(v)
      case None => None
    else
      match LeadingNumber(t)
      case Some(v) => Some(v)
      case None => None
  }

  /** `parseInt(s, 10)`: skip white space, read an optional sign and the
      longest run of digits; `None` stands for `NaN` (no digit there). */
  function ParseInt(s: string): Option<int> {
    SignedNumber(TrimStart(s))
  }

  /** A text of digits followed by a non-digit reads as the value of the digits. */
  lemma {:induction false} LeadingNumberOf(digits: string, rest: string)
    requires |digits| > 0 && AllDigits(digits)
    requires rest == [] || !IsDigit(rest[0])
    ensures LeadingNumber(digits + rest) == Some(DigitsValue(digits))
  {
    LeadingDigitsOfDigitsThen(digits, rest);
    assert (digits + rest)[..|digits|] == digits;
  }

  /** A number rendered as text, as `String(n)` does for integers. */
  function IntToString(n: int): (s: string)
    ensures '.' !in s
    ensures |s| > 0 && (s[0] == '-' <==> n < 0)
    ensures var d := if n < 0 then s[1..] else s;
      |d| > 0 && AllDigits(d) && (|d| > 1 ==> d[0] != '0')
  {
    var digits := if n < 0 then NatToString(-n) else NatToString(n);
    assert forall i :: 0 <= i < |digits| ==> IsDigit(digits[i]);
    if n < 0 then "-" + digits else digits
  }

  lemma {:induction false} ParseIntNegative(digits: string)
    requires |digits| > 0 && AllDigits(digits)
    ensures ParseInt("-" + digits) == Some(0 - DigitsValue(digits))
  {
    var s := "-" + digits;
    assert TrimStart(s) == s by {
      assert s[0] == '-';
    }
    assert LeadingNumber(s[1..]) == Some(DigitsValue(digits)) by {
      assert s[1..] == digits + [];
      LeadingNumberOf(digits, []);
    }
  }

  /** `parseInt` reads back what `String` writes for an integer. */
  lemma ParseIntIntToString(n: int)
    ensures ParseInt(IntToString(n)) == Some(n)
  {
    var m: nat := if n < 0 then -n else n;
    NatToStringValue(m);
    if n < 0 {
      ParseIntNegative(NatToString(m));
    } else {
      ParseIntLeadingDigits(NatToString(m), []);
      assert NatToString(m) + [] == NatToString(m);
    }
  }

  /** `parseInt` reads the leading digits of a patch and ignores what follows
      them ("3-beta" reads as 3). */
  lemma {:induction false} ParseIntLeadingDigits(digits: string, rest: string)
    requires |digits| > 0 && AllDigits(digits)
    requires rest == [] || !IsDigit(rest[0])
    ensures ParseInt(digits + rest) == Some(DigitsValue(digits))
  {
    assert IsDigit((digits + rest)[0]);
    LeadingNumberOf(digits, rest);
  }

  /** Text that does not start with a digit after the white space and sign is `NaN`. */
  lemma ParseIntNaN(s: string)
    requires var t := TrimStart(s);
      var u := if t != [] && (t[0] == '-' || t[0] == '+') then t[1..] else t;
      u == [] || !IsDigit(u[0])
    ensures ParseInt(s).None?
  {
  }

  /** `parseInt(part, 10) + 1` rendered as text; `NaN + 1` is "NaN". */
  function Increment(part: string): string {
    match ParseInt(part)
    case Some(n) => IntToString(n + 1)
    case None => "NaN"
  }

  /** `versionParts[2]`: a missing part reads as `undefined`, which `parseInt`
      sees as the text "undefined". */
  function PatchText(parts: seq<string>): string {
    if |parts| > 2 then parts[2] else "undefined"
  }

  /** `versionParts[2] = patch`: past the end of the array this appends, and
      with one part a hole is left at index 1, which `join` writes as "". */
  function SetPatch(parts: seq<string>, patch: string): seq<string>
    requires |parts| >= 1
  {
    if |parts| > 2 then parts[2 := patch]
    else if |parts| == 2 then parts + [patch]
    else parts + ["", patch]
  }

  /** The version `bumpVersion` derives from `version`. */
  function Bumped(version: string): string {
    var parts := Split(version, '.');
    Join(SetPatch(parts, Increment(PatchText(parts))), '.')
  }

  /** With at least three components, only the third changes: it becomes its
      integer value plus one, or "NaN" when it does not start with a number;
      the others keep their text and their order. */
  lemma BumpReplacesPatch(version: string)
    requires |Split(version, '.')| >= 3
    ensures var parts := Split(version, '.');
      var after := Split(Bumped(version), '.');
      |after| == |parts| &&
      (forall i :: 0 <= i < |parts| && i != 2 ==> after[i] == parts[i]) &&
      after[2] == (match ParseInt(parts[2]) case Some(n) => IntToString(n + 1) case None => "NaN")
  {
    var parts := Split(version, '.');
    var next := parts[2 := Increment(parts[2])];
    SplitPartsLackSep(version, '.');
    assert forall i :: 0 <= i < |next| ==> '.' !in next[i];
    SplitJoin(next, '.');
  }

  /** The patch component reads back as one more than before. */
  lemma BumpIncrementsPatch(version: string, n: int)
    requires |Split(version, '.')| >= 3
    requires ParseInt(Split(version, '.')[2]) == Some(n)
    ensures |Split(Bumped(version), '.')| >= 3 && ParseInt(Split(Bumped(version), '.')[2]) == Some(n + 1)
  {
    BumpReplacesPatch(version);
    ParseIntIntToString(n + 1);
  }

  lemma {:induction false} JoinThree(a: string, b: string, c: string, sep: char)
    ensures Join([a, b, c], sep) == a + [sep] + b + [sep] + c
  {
    assert [a, b, c][1..] == [b, c];
    assert [b, c][1..] == [c];
    assert Join([b, c], sep) == b + [sep] + c;
    assert a + [sep] + (b + [sep] + c) == a + [sep] + b + [sep] + c;
  }

  /** A version of exactly three components keeps the first two and has its
      third incremented. */
  lemma {:induction false} BumpThreeParts(major: string, minor: string, patch: string)
    requires '.' !in major && '.' !in minor && '.' !in patch
    ensures Bumped(major + "." + minor + "." + patch) == major + "." + minor + "." + Increment(patch)
  {
    var parts := [major, minor, patch];
    JoinThree(major, minor, patch, '.');
    SplitJoin(parts, '.');
    assert parts[2 := Increment(patch)] == [major, minor, Increment(patch)];
    JoinThree(major, minor, Increment(patch), '.');
  }

  /** A version of two components gets "NaN" appended as a third. */
  lemma {:induction false} BumpTwoParts(major: string, minor: string)
    requires '.' !in major && '.' !in minor
    ensures Bumped(major + "." + minor) == major + "." + minor + "." + "NaN"
  {
    var parts := [major, minor];
    assert Join(parts, '.') == major + "." + minor by {
      assert parts[1..] == [minor];
    }
    SplitJoin(parts, '.');
    assert ParseInt("undefined").None?;
    assert parts + ["NaN"] == [major, minor, "NaN"];
    JoinThree(major, minor, "NaN", '.');
  }

  /** A version of one component gets an empty second and "NaN" as third. */
  lemma {:induction false} BumpOnePart(major: string)
    requires '.' !in major
    ensures Bumped(major) == major + "." + "." + "NaN"
  {
    SplitWithoutSep(major, '.');
    assert ParseInt("undefined").None?;
    assert [major] + ["", "NaN"] == [major, "", "NaN"];
    JoinThree(major, "", "NaN", '.');
  }

  /** A patch of digits is replaced by the next number. */
  lemma {:induction false} IncrementDigits(patch: string)
    requires |patch| > 0 && AllDigits(patch)
    ensures Increment(patch) == NatToString(DigitsValue(patch) + 1)
  {
    ParseIntLeadingDigits(patch, []);
    assert patch + [] == patch;
  }

  lemma IncrementExamples()
    ensures Increment("5") == "6"
    ensures Increment("3" + "-beta") == "4"
    ensures Increment("x") == "NaN"
  {
    IncrementDigits("5");
    ParseIntLeadingDigits("3", "-beta");
  }

  /** "1.0.5" becomes "1.0.6", "1.0.3-beta" becomes "1.0.4" and "1.0.x" becomes "1.0.NaN". */
  lemma BumpExamples()
    ensures Bumped("1" + "." + "0" + "." + "5") == "1" + "." + "0" + "." + "6"
    ensures Bumped("1" + "." + "0" + "." + ("3" + "-beta")) == "1" + "." + "0" + "." + "4"
    ensures Bumped("1" + "." + "0" + "." + "x") == "1" + "." + "0" + "." + "NaN"
  {
    IncrementExamples();
    BumpThreeParts("1", "0", "5");
    BumpThreeParts("1", "0", "3" + "-beta");
    BumpThreeParts("1", "0", "x");
  }

  /** Versions with fewer than three components end in "NaN". */
  lemma ShortVersionExamples()
    ensures Bumped("1" + "." + "0") == "1" + "." + "0" + "." + "NaN"
    ensures Bumped("1") == "1" + "." + "." + "NaN"
  {
    BumpTwoParts("1", "0");
    BumpOnePart("1");
  }

  /** A JSON value as far as the script looks at it: a string, or anything
      else together with how a template literal renders it. */
  datatype JsonValue = JString(text: string) | JOther(rendered: string)

  type JsonObject = map<string, JsonValue>

  /** Why a run stops with an exception: a file to read is missing, or the
      `version` of `package.json` is not a string and has no `split`. */
  datatype BuildError = MissingFile(path: string) | VersionNotString

  const ArchiveFolder := "archives"

  /** `path.join(dir, name)` for a directory and a plain file name. */
  function PathJoin(dir: string, name: string): string {
    dir + "/" + name
  }

  function PackagePath(dir: string): string {
    PathJoin(dir, "package.json")
  }

  function ManifestPath(dir: string): string {
    PathJoin(dir, "manifest.json")
  }

  function ArchivePath(dir: string): string {
    PathJoin(dir, ArchiveFolder)
  }

  /** A `package.json` path and a `manifest.json` path are never the same file. */
  lemma PackageIsNotManifest(d1: string, d2: string)
    ensures PackagePath(d1) != ManifestPath(d2)
  {
    var p := PackagePath(d1);
    var m := ManifestPath(d2);
    assert p[|p| - 6] == 'e';
    assert m[|m| - 6] == 't';
  }

  lemma PackagePathsDiffer(d1: string, d2: string)
    requires d1 != d2
    ensures PackagePath(d1) != PackagePath(d2)
  {
    assert PackagePath(d1)[..|d1|] == d1;
    assert PackagePath(d2)[..|d2|] == d2;
  }

  /** The version `bumpVersion` writes, or the exception it stops with. */
  function NewVersion(files: map<string, JsonObject>, dir: string): Result<string, BuildError> {
    if PackagePath(dir) !in files then Err(MissingFile(PackagePath(dir)))
    else if ManifestPath(dir) !in files then Err(MissingFile(ManifestPath(dir)))
    else
      var pkg := files[PackagePath(dir)];
      if "version" in pkg && pkg["version"].JString? then Ok(Bumped(pkg["version"].text))
      else Err(VersionNotString)
  }

  /** The files after `bumpVersion`: both records get the new version; on an
      exception nothing has been written yet. */
  function AfterBump(files: map<string, JsonObject>, dir: string): map<string, JsonObject> {
    match NewVersion(files, dir)
    case Err(_) => files
    case Ok(v) =>
      files[PackagePath(dir) := files[PackagePath(dir)]["version" := JString(v)]]
           [ManifestPath(dir) := files[ManifestPath(dir)]["version" := JString(v)]]
  }

  /** Both records receive the same, bumped version. */
  lemma BumpWritesBoth(files: map<string, JsonObject>, dir: string)
    requires NewVersion(files, dir).Ok?
    ensures var after := AfterBump(files, dir);
      var v := Bumped(files[PackagePath(dir)]["version"].text);
      after[PackagePath(dir)]["version"] == JString(v) &&
      after[ManifestPath(dir)]["version"] == JString(v)
  {
    PackageIsNotManifest(dir, dir);
  }

  /** Nothing but the two `version` fields changes, and no file appears or goes. */
  lemma BumpChangesOnlyVersions(files: map<string, JsonObject>, dir: string)
    ensures var after := AfterBump(files, dir);
      after.Keys == files.Keys &&
      (forall p :: p in files && p != PackagePath(dir) && p != ManifestPath(dir) ==> after[p] == files[p]) &&
      (forall p :: p in files ==> after[p].Keys - {"version"} == files[p].Keys - {"version"}) &&
      (forall p, k :: p in files && k in files[p] && k != "version" ==> after[p][k] == files[p][k])
  {
    PackageIsNotManifest(dir, dir);
  }

  /** How the template literal `${version}` renders the version that was read. */
  function VersionText(pkg: JsonObject): string {
    if "version" !in pkg then "undefined"
    else match pkg["version"]
      case JString(t) => t
      case JOther(r) => r
  }

  /** The zip file `compressAssets` names, or the exception it stops with.
      `getVersion` reads `package.json` relative to the working directory `cwd`. */
  function ArchiveName(files: map<string, JsonObject>, dir: string, cwd: string): Result<string, BuildError> {
    match NewVersion(files, dir)
    case Err(e) => Err(e)
    case Ok(_) =>
      var after := AfterBump(files, dir);
      if PackagePath(cwd) !in after then Err(MissingFile(PackagePath(cwd)))
      else Ok(PathJoin(ArchivePath(dir), "dist_v" + VersionText(after[PackagePath(cwd)]) + ".zip"))
  }

  /** Run from the script's own directory, the archive is named after the
      bumped version and lies in the archives folder. */
  lemma ArchiveNamedAfterBump(files: map<string, JsonObject>, dir: string)
    requires NewVersion(files, dir).Ok?
    ensures ArchiveName(files, dir, dir) ==
      Ok(PathJoin(ArchivePath(dir), "dist_v" + Bumped(files[PackagePath(dir)]["version"].text) + ".zip"))
  {
    BumpWritesBoth(files, dir);
  }

  /** Run from another directory, the name comes from that directory's
      `package.json`, which the bump does not touch. */
  lemma ArchiveNameFromOtherDirectory(files: map<string, JsonObject>, dir: string, cwd: string)
    requires NewVersion(files, dir).Ok? && cwd != dir && PackagePath(cwd) in files
    ensures ArchiveName(files, dir, cwd) ==
      Ok(PathJoin(ArchivePath(dir), "dist_v" + VersionText(files[PackagePath(cwd)]) + ".zip"))
  {
    PackagePathsDiffer(cwd, dir);
    PackageIsNotManifest(cwd, dir);
  }

  /** The folder set after `prepareFolder`. */
  function Prepared(dirs: set<string>, dir: string): set<string> {
    dirs + {ArchivePath(dir)}
  }

  /** Preparing twice leaves the same folders as preparing once. */
  lemma PrepareIdempotent(dirs: set<string>, dir: string)
    ensures Prepared(Prepared(dirs, dir), dir) == Prepared(dirs, dir)
    ensures ArchivePath(dir) in Prepared(dirs, dir)
    ensures ArchivePath(dir) in dirs ==> Prepared(dirs, dir) == dirs
  {
  }

  /** The file system the script sees: parsed JSON files by path and the
      directories that exist, with the script's directory and the working
      directory fixed for the run. */
  class Workspace {
    const scriptDir: string
    const cwd: string
    var files: map<string, JsonObject>
    var dirs: set<string>

    constructor (scriptDir: string, cwd: string, files: map<string, JsonObject>, dirs: set<string>)
      ensures this.scriptDir == scriptDir && this.cwd == cwd && this.files == files && this.dirs == dirs
    {
      this.scriptDir := scriptDir;
      this.cwd := cwd;
      this.files := files;
      this.dirs := dirs;
    }

    /** `prepareFolder()`: create the archives folder when it is missing. */
    method PrepareFolder() returns (archivePath: string)
      modifies this
      ensures archivePath == ArchivePath(scriptDir)
      ensures dirs == Prepared(old(dirs), scriptDir) && files == old(files)
    {
      archivePath := PathJoin(scriptDir, ArchiveFolder);
      if archivePath !in dirs {
        dirs := dirs + {archivePath};
      }
    }

    /** `bumpVersion()`. */
    method BumpVersion() returns (r: Result<string, BuildError>)
      modifies this
      ensures r == NewVersion(old(files), scriptDir)
      ensures files == AfterBump(old(files), scriptDir) && dirs == old(dirs)
    {
      var packageJsonPath := PathJoin(scriptDir, "package.json");
      var manifestJsonPath := PathJoin(scriptDir, "manifest.json");
      if packageJsonPath !in files {
        return Err(MissingFile(packageJsonPath));
      }
      var packageJson := files[packageJsonPath];
      if manifestJsonPath !in files {
        return Err(MissingFile(manifestJsonPath));
      }
      var manifestJson := files[manifestJsonPath];
      if "version" !in packageJson || !packageJson["version"].JString? {
        return Err(VersionNotString);
      }
      var versionParts := Split(packageJson["version"].text, '.');
      var patch := Increment(if |versionParts| > 2 then versionParts[2] else "undefined");
      if |versionParts| > 2 {
        versionParts := versionParts[2 := patch];
      } else if |versionParts| == 2 {
        versionParts := versionParts + [patch];
      } else {
        versionParts := versionParts + ["", patch];
      }
      var newVersion := Join(versionParts, '.');
      packageJson := packageJson["version" := JString(newVersion)];
      manifestJson := manifestJson["version" := JString(newVersion)];
      files := files[packageJsonPath := packageJson];
      files := files[manifestJsonPath := manifestJson];
      r := Ok(newVersion);
    }

    /** `compressAssets()` up to naming the output file: bump, prepare the
        folder, read the version back and name the zip after it. */
    method CompressAssets() returns (r: Result<string, BuildError>)
      modifies this
      ensures r == ArchiveName(old(files), scriptDir, cwd)
      ensures files == AfterBump(old(files), scriptDir)
      ensures dirs == if NewVersion(old(files), scriptDir).Ok? then Prepared(old(dirs), scriptDir) else old(dirs)
    {
      var bumped := BumpVersion();
      if bumped.Err? {
        return Err(bumped.error);
      }
      var archivePath := PrepareFolder();
      var localPath := PathJoin(cwd, "package.json");
      if localPath !in files {
        return Err(MissingFile(localPath));
      }
      var version := VersionText(files[localPath]);
      r := Ok(PathJoin(archivePath, "dist_v" + version + ".zip"));
    }
  }
}
