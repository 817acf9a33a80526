/** The packaging logic of the build script: the version string and its
    development suffix, where the revision comes from, the minimal
    environment for running git, the generated version file and how a
    later build reads it back, the classifier list, and the interpreter
    version gate. Running git, the file system and `setup()` itself are
    parameters or left out. */
module Packaging {
  import opened PyValues

  const Major: nat := 0
  const Minor: nat := 2
  const Micro: nat := 11
  const IsReleased: bool := false

  function Min(a: nat, b: nat): nat {
    if a < b then a else b
  }

  // ---------------------------------------------------------------------
  // Decimal numbers, as `'%d'` writes them

  predicate IsDigit(c: char) {
    '0' <= c <= '9'
  }

  function DigitChar(d: nat): (c: char)
    requires d < 10
    ensures IsDigit(c) && (c as int) - ('0' as int) == d
  {
    (('0' as int) + d) as char
  }

  /** `'%d' % n` for a non-negative `n`: digits only, no leading zero. */
  function DecimalString(n: nat): (s: string)
    ensures |s| >= 1
    ensures forall i :: 0 <= i < |s| ==> IsDigit(s[i])
    ensures |s| > 1 ==> s[0] != '0'
  {
    if n < 10 then [DigitChar(n)] else DecimalString(n / 10) + [DigitChar(n % 10)]
  }

  function DigitValue(c: char): nat
    requires IsDigit(c)
  {
    (c as int) - ('0' as int)
  }

  /** The number a string of digits denotes. */
  function DecimalValue(s: string): nat
    requires forall i :: 0 <= i < |s| ==> IsDigit(s[i])
  {
    if |s| == 0 then 0
    else DecimalValue(s[..|s| - 1]) * 10 + DigitValue(s[|s| - 1])
  }

  lemma {:induction false} DecimalRoundTrip(n: nat)
    ensures DecimalValue(DecimalString(n)) == n
  {
    if n >= 10 {
      var s := DecimalString(n);
      assert s[..|s| - 1] == DecimalString(n / 10);
      DecimalRoundTrip(n / 10);
    }
  }

  // ---------------------------------------------------------------------
  // `str.split(sep)` and `sep.join(parts)` for a one-character separator

  /** `s.split(sep)`: the pieces between separators, never an empty list. */
  function Split(s: string, sep: char): (parts: seq<string>)
    ensures |parts| >= 1
    ensures forall i :: 0 <= i < |parts| ==> sep !in parts[i]
    decreases |s|
  {
    if |s| == 0 then [""]
    else
      var rest := Split(s[1..], sep);
      if s[0] == sep then [""] + rest else [[s[0]] + rest[0]] + rest[1..]
  }

  /** `sep.join(parts)`. */
  function Join(parts: seq<string>, sep: char): string
    requires |parts| >= 1
  {
    if |parts| == 1 then parts[0] else parts[0] + [sep] + Join(parts[1..], sep)
  }

  lemma {:induction false} SplitWithoutSeparator(p: string, sep: char)
    requires sep !in p
    ensures Split(p, sep) == [p]
    decreases |p|
  {
    if |p| > 0 {
      assert sep !in p[1..];
      SplitWithoutSeparator(p[1..], sep);
      assert [p[0]] + p[1..] == p;
    }
  }

  lemma {:induction false} SplitAfterPiece(p: string, sep: char, t: string)
    requires sep !in p
    ensures Split(p + [sep] + t, sep) == [p] + Split(t, sep)
    decreases |p|
  {
    var s := p + [sep] + t;
    if |p| == 0 {
      assert s[1..] == t;
    } else {
      assert s[1..] == p[1..] + [sep] + t;
      assert sep !in p[1..];
      SplitAfterPiece(p[1..], sep, t);
      assert [p[0]] + p[1..] == p;
    }
  }

  /** Splitting what was joined gives the pieces back, when no piece holds
      the separator. */
  lemma {:induction false} SplitJoin(parts: seq<string>, sep: char)
    requires |parts| >= 1
    requires forall i :: 0 <= i < |parts| ==> sep !in parts[i]
    ensures Split(Join(parts, sep), sep) == parts
    decreases |parts|
  {
    if |parts| == 1 {
      SplitWithoutSeparator(parts[0], sep);
    } else {
      SplitAfterPiece(parts[0], sep, Join(parts[1..], sep));
      SplitJoin(parts[1..], sep);
    }
  }

  /** Putting a character in front of the first piece puts it in front of
      the joined string. */
  lemma JoinPrefixFirst(c: char, parts: seq<string>, sep: char)
    requires |parts| >= 1
    ensures Join([[c] + parts[0]] + parts[1..], sep) == [c] + Join(parts, sep)
  {
    var moved := [[c] + parts[0]] + parts[1..];
    if |parts| > 1 {
      assert moved[1..] == parts[1..];
      assert Join(moved, sep) == [c] + parts[0] + [sep] + Join(parts[1..], sep);
    }
  }

  /** Joining what was split gives the string back. */
  lemma {:induction false} JoinSplit(s: string, sep: char)
    ensures Join(Split(s, sep), sep) == s
    decreases |s|
  {
    if |s| > 0 {
      var rest := Split(s[1..], sep);
      JoinSplit(s[1..], sep);
      assert s == [s[0]] + s[1..];
      if s[0] == sep {
        assert ([""] + rest)[1..] == rest;
        assert Join([""] + rest, sep) == "" + [sep] + Join(rest, sep);
      } else {
        JoinPrefixFirst(s[0], rest, sep);
      }
    }
  }

  // ---------------------------------------------------------------------
  // The version string

  /** `'%d.%d.%d' % (major, minor, micro)`. */
  function FormatVersion(major: nat, minor: nat, micro: nat): (v: string)
    ensures Split(v, '.') == [DecimalString(major), DecimalString(minor), DecimalString(micro)]
    ensures '\n' !in v
  {
    var a, b, c := DecimalString(major), DecimalString(minor), DecimalString(micro);
    assert '.' !in a && '.' !in b && '.' !in c;
    SplitJoin([a, b, c], '.');
    assert [a, b, c][1..] == [b, c] && [b, c][1..] == [c];
    assert Join([c], '.') == c;
    assert Join([b, c], '.') == b + ['.'] + c;
    assert Join([a, b, c], '.') == a + ['.'] + (b + ['.'] + c);
    Join([a, b, c], '.')
  }

  /** VERSION. */
  const Version: string := FormatVersion(Major, Minor, Micro)

  /** VERSION reads "0.2.11", and its three dotted fields read back as
      MAJOR, MINOR and MICRO. */
  lemma VersionIs()
    ensures Version == "0.2.11"
    ensures var parts := Split(Version, '.');
      |parts| == 3 && DecimalValue(parts[0]) == Major && DecimalValue(parts[1]) == Minor && DecimalValue(parts[2]) == Micro
  {
    assert DigitChar(0) == '0' && DigitChar(1) == '1' && DigitChar(2) == '2';
    assert DecimalString(11) == DecimalString(1) + [DigitChar(1)] == "11";
    var a, b, c := DecimalString(Major), DecimalString(Minor), DecimalString(Micro);
    assert a == "0" && b == "2" && c == "11";
    assert [a, b, c][1..] == [b, c] && [b, c][1..] == [c];
    assert Join([b, c], '.') == b + ['.'] + c;
    DecimalRoundTrip(Major);
    DecimalRoundTrip(Minor);
    DecimalRoundTrip(Micro);
  }

  /** FULLVERSION: VERSION, followed when not released by `.dev-` and at
      most seven characters of the revision. */
  function FullVersion(version: string, released: bool, revision: string): (full: string)
    ensures |full| >= |version| && full[..|version|] == version
    ensures released ==> full == version
    ensures !released ==> |full| - |version| == 5 + Min(7, |revision|) <= 12
    ensures !released ==> full[|version|..] == ".dev-" + revision[..|full| - |version| - 5]
  {
    if released then version else version + ".dev-" + revision[..Min(7, |revision|)]
  }

  // ---------------------------------------------------------------------
  // The revision from git

  type Byte = b: int | 0 <= b < 256

  /** The whitespace `bytes.strip()` removes: space, \t, \n, \v, \f, \r. */
  predicate IsSpaceByte(b: int) {
    b == 32 || 9 <= b <= 13
  }

  /** How many whitespace bytes `b` starts with. */
  function LeadingSpaces(b: seq<Byte>): (n: nat)
    ensures n <= |b|
    ensures forall k :: 0 <= k < n ==> IsSpaceByte(b[k])
    ensures n < |b| ==> !IsSpaceByte(b[n])
  {
    if |b| > 0 && IsSpaceByte(b[0]) then 1 + LeadingSpaces(b[1..]) else 0
  }

  function StripRight(b: seq<Byte>): (t: seq<Byte>)
    ensures |t| <= |b| && t == b[..|t|]
    ensures |t| > 0 ==> !IsSpaceByte(t[|t| - 1])
    ensures forall i :: |t| <= i < |b| ==> IsSpaceByte(b[i])
  {
    if |b| > 0 && IsSpaceByte(b[|b| - 1]) then StripRight(b[..|b| - 1]) else b
  }

  /** `bytes.strip()`: the input less its leading and trailing whitespace. */
  function Strip(b: seq<Byte>): (t: seq<Byte>)
    ensures LeadingSpaces(b) + |t| <= |b|
    ensures t == b[LeadingSpaces(b)..LeadingSpaces(b) + |t|]
    ensures forall k :: LeadingSpaces(b) + |t| <= k < |b| ==> IsSpaceByte(b[k])
    ensures |t| > 0 ==> !IsSpaceByte(t[0]) && !IsSpaceByte(t[|t| - 1])
  {
    StripRight(b[LeadingSpaces(b)..])
  }

  /** `bytes.decode('ascii')`. */
  function DecodeAscii(b: seq<Byte>): (s: Result<string>)
    ensures s.Ok? <==> forall i :: 0 <= i < |b| ==> b[i] < 128
    ensures s.Ok? ==> |s.value| == |b| && forall i :: 0 <= i < |b| ==> s.value[i] as int == b[i]
    ensures s.Err? ==> s.error == UnicodeDecodeError
  {
    if forall i :: 0 <= i < |b| ==> b[i] < 128 then
      Ok(seq(|b|, i requires 0 <= i < |b| => b[i] as char))
    else
      Err(UnicodeDecodeError)
  }

  /** How running `git rev-parse HEAD` went: it could not be started
      (OSError), or it ran and printed `stdout`. */
  datatype GitRun = RaisedOSError | Finished(stdout: seq<Byte>)

  /** `git_version`: the stripped, ASCII-decoded output, or "Unknown" when
      git could not be run. A decoding failure is not caught. */
  function GitVersion(run: GitRun): (rev: Result<string>)
    ensures run.RaisedOSError? ==> rev == Ok("Unknown")
    ensures run.Finished? && rev.Ok? ==> |rev.value| <= |run.stdout|
    ensures run.Finished? && rev.Ok? && |rev.value| > 0 ==>
      !IsSpaceByte(rev.value[0] as int) && !IsSpaceByte(rev.value[|rev.value| - 1] as int)
    ensures run.Finished? ==> (rev.Err? <==> exists i :: 0 <= i < |Strip(run.stdout)| && Strip(run.stdout)[i] >= 128)
    ensures run.Finished? && rev.Ok? ==>
      |rev.value| == |Strip(run.stdout)| && forall i :: 0 <= i < |rev.value| ==> rev.value[i] as int == Strip(run.stdout)[i]
  {
    match run
    case RaisedOSError => Ok("Unknown")
    case Finished(out) => DecodeAscii(Strip(out))
  }

  /** `_minimal_ext_cmd`'s environment: SYSTEMROOT and PATH copied when
      set, then LANGUAGE, LANG and LC_ALL set to "C"; nothing else. */
  method MinimalEnv(environ: map<string, string>) returns (env: map<string, string>)
    ensures env.Keys == ({"SYSTEMROOT", "PATH"} * environ.Keys) + {"LANGUAGE", "LANG", "LC_ALL"}
    ensures forall k :: k in env && k in {"SYSTEMROOT", "PATH"} ==> env[k] == environ[k]
    ensures forall k :: k in env && k in {"LANGUAGE", "LANG", "LC_ALL"} ==> env[k] == "C"
  {
    env := map[];
    var names := ["SYSTEMROOT", "PATH"];
    for i := 0 to |names|
      invariant env.Keys == set k | k in names[..i] && k in environ
      invariant forall k :: k in env ==> k in environ && env[k] == environ[k]
    {
      var k := names[i];
      assert names[..i + 1] == names[..i] + [k];
      if k in environ {
        env := env[k := environ[k]];
      }
    }
    assert names[..|names|] == names;
    env := env["LANGUAGE" := "C"];
    env := env["LANG" := "C"];
    env := env["LC_ALL" := "C"];
  }

  // ---------------------------------------------------------------------
  // The generated version file and reading it back

  function PythonBool(b: bool): string {
    if b then "True" else "False"
  }

  /** `name = '<value>'`: how the version file assigns each string. */
  function Assignment(name: string, value: string): string {
    name + " = '" + value + "'"
  }

  const VersionFileComment: string := "# THIS FILE IS GENERATED FROM SKNANO SETUP.PY"

  /** The lines of the version file `write_version_py` writes: the lines
      before `git_revision`, its assignment, and the fixed lines after. */
  function VersionFileLines(version: string, full: string, revision: string, released: bool): seq<string> {
    VersionFileHead(version, full) + [Assignment("git_revision", revision)] + VersionFileTail(released)
  }

  function VersionFileHead(version: string, full: string): seq<string> {
    [ "",
      VersionFileComment,
      Assignment("short_version", version),
      Assignment("version", version),
      Assignment("full_version", full) ]
  }

  function VersionFileTail(released: bool): seq<string> {
    [ "release = " + PythonBool(released),
      "",
      "if not release:",
      "    version = full_version",
      "" ]
  }

  function VersionFileText(version: string, full: string, revision: string, released: bool): string {
    Join(VersionFileLines(version, full, revision, released), '\n')
  }

  /** The string literal a line `name = '...'` assigns, if it is one. */
  function AssignedValue(line: string, name: string): (v: Option<string>)
    ensures v.Some? ==> line == Assignment(name, v.value)
  {
    var prefix := name + " = '";
    if |line| >= |prefix| + 1 && line[..|prefix|] == prefix && line[|line| - 1] == '\'' then
      assert line == prefix + line[|prefix|..|line| - 1] + "'";
      Some(line[|prefix|..|line| - 1])
    else
      None
  }

  /** Reading an assignment gives back the value assigned. */
  lemma AssignmentRoundTrip(name: string, value: string)
    ensures AssignedValue(Assignment(name, value), name) == Some(value)
  {
    var prefix := name + " = '";
    var line := Assignment(name, value);
    assert line == prefix + value + "'";
    assert line[..|prefix|] == prefix;
    assert line[|prefix|..|line| - 1] == value;
  }

  /** The value of the last top-level string assignment to `name`. */
  /** No line of `lines` assigns `name`. */
  predicate NoAssignment(lines: seq<string>, name: string) {
    forall i :: 0 <= i < |lines| ==> AssignedValue(lines[i], name).None?
  }

  /** Line `i` assigns `name` and no later line does. */
  predicate LastAssignment(lines: seq<string>, name: string, i: int) {
    0 <= i < |lines| && AssignedValue(lines[i], name).Some? && NoAssignment(lines[i + 1..], name)
  }

  function LastAssigned(lines: seq<string>, name: string): Option<string> {
    if |lines| == 0 then None
    else match LastAssigned(lines[1..], name)
      case Some(v) => Some(v)
      case None => AssignedValue(lines[0], name)
  }

  /** The scan finds nothing exactly when no line assigns `name`, and
      otherwise the value of the last line that does. */
  lemma {:induction false} LastAssignedIsLast(lines: seq<string>, name: string)
    ensures LastAssigned(lines, name).None? <==> NoAssignment(lines, name)
    ensures LastAssigned(lines, name).Some? ==>
      exists i :: LastAssignment(lines, name, i) && AssignedValue(lines[i], name) == LastAssigned(lines, name)
    decreases |lines|
  {
    if |lines| > 0 {
      LastAssignedIsLast(lines[1..], name);
      if LastAssigned(lines[1..], name).Some? {
        var i :| LastAssignment(lines[1..], name, i) && AssignedValue(lines[1..][i], name) == LastAssigned(lines[1..], name);
        assert lines[1..][i + 1..] == lines[i + 2..];
        assert LastAssignment(lines, name, i + 1);
      } else {
        assert lines[1..] == lines[0 + 1..];
      }
    }
  }

  lemma {:induction false} LastAssignedAppend(a: seq<string>, b: seq<string>, name: string)
    ensures LastAssigned(a + b, name) == if LastAssigned(b, name).Some? then LastAssigned(b, name) else LastAssigned(a, name)
    decreases |a|
  {
    if |a| > 0 {
      assert (a + b)[1..] == a[1..] + b;
      LastAssignedAppend(a[1..], b, name);
    } else {
      assert a + b == b;
    }
  }

  /** `imp.load_source(...).git_revision` on a version file: the module
      without that attribute raises AttributeError. Only string assignments
      at the start of a line are read. */
  function StoredRevision(text: string): (r: Result<string>)
    ensures r.Err? <==> NoAssignment(Split(text, '\n'), "git_revision")
    ensures r.Err? ==> r.error == AttributeError
    ensures r.Ok? ==> exists i :: LastAssignment(Split(text, '\n'), "git_revision", i) &&
                                  AssignedValue(Split(text, '\n')[i], "git_revision") == Some(r.value)
  {
    LastAssignedIsLast(Split(text, '\n'), "git_revision");
    match LastAssigned(Split(text, '\n'), "git_revision")
    case Some(v) => Ok(v)
    case None => Err(AttributeError)
  }

  /** Nothing after the `git_revision` line assigns it. */
  lemma TailAssignsNoRevision(released: bool)
    ensures LastAssigned(VersionFileTail(released), "git_revision").None?
  {
    var tail := VersionFileTail(released);
    var prefix := "git_revision = '";
    assert |tail[0]| < |prefix| && |tail[1]| == 0 && |tail[2]| < |prefix| && |tail[4]| == 0;
    assert tail[3][..|prefix|][0] == ' ' != prefix[0];
    assert NoAssignment(tail, "git_revision");
    LastAssignedIsLast(tail, "git_revision");
  }

  predicate AllSingleLine(lines: seq<string>) {
    forall i :: 0 <= i < |lines| ==> SingleLine(lines[i])
  }

  lemma AssignmentSingleLine(name: string, value: string)
    requires SingleLine(name) && SingleLine(value)
    ensures SingleLine(Assignment(name, value))
  {
  }

  // The fixed lines of the version file, one small lemma each for the
  // same reason as the classifier lines below.
  lemma CommentSingleLine()
    ensures SingleLine(VersionFileComment)
  {
    ConcatSingleLine("# THIS FILE IS GENERATED", " FROM SKNANO SETUP.PY");
  }

  lemma HeadSingleLines(version: string, full: string)
    requires SingleLine(version) && SingleLine(full)
    ensures AllSingleLine(VersionFileHead(version, full))
  {
    CommentSingleLine();
    AssignmentSingleLine("short_version", version);
    AssignmentSingleLine("version", version);
    AssignmentSingleLine("full_version", full);
  }

  lemma ReleaseLineSingle(released: bool)
    ensures SingleLine("release = " + PythonBool(released))
  {
    ConcatSingleLine("release = ", PythonBool(released));
  }

  lemma GuardLineSingle() ensures SingleLine("if not release:") { }

  lemma ResetLineSingle() ensures SingleLine("    version = full_version") { ConcatSingleLine("    version", " = full_version"); }

  lemma TailSingleLines(released: bool)
    ensures AllSingleLine(VersionFileTail(released))
  {
    ReleaseLineSingle(released);
    GuardLineSingle();
    ResetLineSingle();
  }

  lemma LinesSingleLines(version: string, full: string, revision: string, released: bool)
    requires SingleLine(version) && SingleLine(full) && SingleLine(revision)
    ensures AllSingleLine(VersionFileLines(version, full, revision, released))
  {
    HeadSingleLines(version, full);
    TailSingleLines(released);
    AssignmentSingleLine("git_revision", revision);
  }

  /** A value the scan and Python read alike between single quotes: no
      line break, no quote to end the literal early, no backslash to start
      an escape. */
  predicate PlainLiteral(s: string) {
    SingleLine(s) && '\'' !in s && '\\' !in s
  }

  /** A written version file gives back the revision written into it. */
  lemma StoredRevisionRoundTrip(version: string, full: string, revision: string, released: bool)
    requires PlainLiteral(version) && PlainLiteral(full) && PlainLiteral(revision)
    ensures StoredRevision(VersionFileText(version, full, revision, released)) == Ok(revision)
  {
    var head, line, tail := VersionFileHead(version, full), Assignment("git_revision", revision), VersionFileTail(released);
    var lines := VersionFileLines(version, full, revision, released);
    LinesSingleLines(version, full, revision, released);
    SplitJoin(lines, '\n');
    AssignmentRoundTrip("git_revision", revision);
    TailAssignsNoRevision(released);
    assert lines == head + ([line] + tail);
    LastAssignedAppend([line], tail, "git_revision");
    LastAssignedAppend(head, [line] + tail, "git_revision");
  }

  // ---------------------------------------------------------------------
  // get_version_info

  /** What the build finds: a `.git` directory, the text of a stored
      `sknano/version.py`, and what running git gives. */
  datatype Checkout = Checkout(hasGitDir: bool, versionFile: Option<string>, git: GitRun)

  /** The revision: from git when `.git` exists, else from the stored
      version file, else "Unknown". */
  function Revision(tree: Checkout): (rev: Result<string>)
    ensures tree.hasGitDir ==> rev == GitVersion(tree.git)
    ensures !tree.hasGitDir && tree.versionFile.Some? ==> rev == StoredRevision(tree.versionFile.value)
    ensures !tree.hasGitDir && tree.versionFile.None? ==> rev == Ok("Unknown")
  {
    if tree.hasGitDir then GitVersion(tree.git)
    else if tree.versionFile.Some? then StoredRevision(tree.versionFile.value)
    else Ok("Unknown")
  }

  lemma UnknownRevisionVersion()
    ensures FullVersion(Version, IsReleased, "Unknown") == Version + ".dev-Unknown"
  {
    var u := "Unknown";
    assert |u| == 7 && u[..7] == u;
    assert Version + ".dev-" + u == Version + (".dev-" + u);
    assert ".dev-" + u == ".dev-Unknown";
  }

  /** `get_version_info`: (FULLVERSION, GIT_REVISION). */
  function GetVersionInfo(tree: Checkout): (info: Result<(string, string)>)
    ensures info.Ok? <==> Revision(tree).Ok?
    ensures info.Ok? ==> info.value.1 == Revision(tree).value
    ensures info.Ok? ==> info.value.0 == FullVersion(Version, IsReleased, info.value.1)
    ensures !tree.hasGitDir && tree.versionFile.None? ==> info == Ok((Version + ".dev-Unknown", "Unknown"))
  {
    var rev :- Revision(tree);
    UnknownRevisionVersion();
    Ok((FullVersion(Version, IsReleased, rev), rev))
  }

  /** `write_version_py`'s file for the given version information. */
  function WrittenVersionFile(full: string, revision: string): string {
    VersionFileText(Version, full, revision, IsReleased)
  }

  /** A source distribution (no `.git`) built from the version file a git
      checkout wrote reports the same version information, whatever git
      would now say. */
  lemma SdistKeepsVersion(run: GitRun, stale: Option<string>, later: GitRun)
    requires GetVersionInfo(Checkout(true, stale, run)).Ok?
    requires PlainLiteral(GetVersionInfo(Checkout(true, stale, run)).value.1)
    ensures var info := GetVersionInfo(Checkout(true, stale, run)).value;
      GetVersionInfo(Checkout(false, Some(WrittenVersionFile(info.0, info.1)), later)) == Ok(info)
  {
    var info := GetVersionInfo(Checkout(true, stale, run)).value;
    var rev := info.1;
    VersionIsPlain();
    assert PlainLiteral(info.0) by {
      var tail := ".dev-" + rev[..Min(7, |rev|)];
      assert info.0 == Version + tail;
      assert PlainLiteral(tail) by {
        assert PlainLiteral(".dev-");
        assert PlainLiteral(rev[..Min(7, |rev|)]);
      }
    }
    StoredRevisionRoundTrip(Version, info.0, rev, IsReleased);
  }

  lemma VersionIsPlain()
    ensures PlainLiteral(Version)
  {
    VersionIs();
  }

  // ---------------------------------------------------------------------
  // Classifiers and the interpreter check

  /** The classifier lines, in order. */
  const ClassifierLines: seq<string> := [
    "Development Status :: 4 - Beta",
    "Intended Audience :: Science/Research",
    "License :: OSI Approved :: BSD License",
    "Operating System :: MacOS :: MacOS X",
    "Operating System :: Microsoft :: Windows",
    "Operating System :: POSIX",
    "Operating System :: Unix",
    "Programming Language :: Python",
    "Programming Language :: Python :: 2.7",
    "Topic :: Software Development",
    "Topic :: Scientific/Engineering"]

  /** CLASSIFIERS: the lines, each ended by a newline, then one blank line. */
  const ClassifierText: string := Join(ClassifierLines + ["", ""], '\n')

  /** `[_f for _f in parts if _f]`. */
  function NonEmpty(parts: seq<string>): (r: seq<string>)
    ensures |r| <= |parts|
    ensures forall i :: 0 <= i < |r| ==> r[i] != "" && r[i] in parts
  {
    if |parts| == 0 then []
    else (if parts[0] == "" then [] else [parts[0]]) + NonEmpty(parts[1..])
  }

  lemma {:induction false} NonEmptyAppend(a: seq<string>, b: seq<string>)
    ensures NonEmpty(a + b) == NonEmpty(a) + NonEmpty(b)
    decreases |a|
  {
    if |a| > 0 {
      var head := if a[0] == "" then [] else [a[0]];
      assert (a + b)[0] == a[0] && (a + b)[1..] == a[1..] + b;
      assert NonEmpty(a + b) == head + NonEmpty(a[1..] + b);
      NonEmptyAppend(a[1..], b);
      assert head + (NonEmpty(a[1..]) + NonEmpty(b)) == (head + NonEmpty(a[1..])) + NonEmpty(b);
    } else {
      assert a + b == b;
    }
  }

  lemma {:induction false} NonEmptyKeeps(parts: seq<string>)
    requires forall i :: 0 <= i < |parts| ==> parts[i] != ""
    ensures NonEmpty(parts) == parts
    decreases |parts|
  {
    if |parts| > 0 {
      NonEmptyKeeps(parts[1..]);
    }
  }

  /** The `classifiers` option: the non-empty lines of the text. */
  function Classifiers(text: string): seq<string> {
    NonEmpty(Split(text, '\n'))
  }

  /** A string with no line break in it. */
  predicate SingleLine(s: string) {
    '\n' !in s
  }

  lemma ConcatSingleLine(a: string, b: string)
    requires SingleLine(a) && SingleLine(b)
    ensures SingleLine(a + b)
  {
  }

  // One lemma per classifier literal. Checking that a long literal holds
  // no line break costs the verifier roughly the square of its length, so
  // each literal is checked as two halves joined by `ConcatSingleLine`,
  // and each in a lemma of its own so that no proof sees all of them.
  lemma ClassifierLine0() ensures SingleLine("Development Status :: 4 - Beta") { ConcatSingleLine("Development Sta", "tus :: 4 - Beta"); }
  lemma ClassifierLine1() ensures SingleLine("Intended Audience :: Science/Research") { ConcatSingleLine("Intended Audience ", ":: Science/Research"); }
  lemma ClassifierLine2() ensures SingleLine("License :: OSI Approved :: BSD License") { ConcatSingleLine("License :: OSI Appr", "oved :: BSD License"); }
  lemma ClassifierLine3() ensures SingleLine("Operating System :: MacOS :: MacOS X") { ConcatSingleLine("Operating System :", ": MacOS :: MacOS X"); }
  lemma ClassifierLine4() ensures SingleLine("Operating System :: Microsoft :: Windows") { ConcatSingleLine("Operating System :: ", "Microsoft :: Windows"); }
  lemma ClassifierLine5() ensures SingleLine("Operating System :: POSIX") { ConcatSingleLine("Operating Sy", "stem :: POSIX"); }
  lemma ClassifierLine6() ensures SingleLine("Operating System :: Unix") { ConcatSingleLine("Operating Sy", "stem :: Unix"); }
  lemma ClassifierLine7() ensures SingleLine("Programming Language :: Python") { ConcatSingleLine("Programming Lan", "guage :: Python"); }
  lemma ClassifierLine8() ensures SingleLine("Programming Language :: Python :: 2.7") { ConcatSingleLine("Programming Langua", "ge :: Python :: 2.7"); }
  lemma ClassifierLine9() ensures SingleLine("Topic :: Software Development") { ConcatSingleLine("Topic :: Softw", "are Development"); }
  lemma ClassifierLine10() ensures SingleLine("Topic :: Scientific/Engineering") { ConcatSingleLine("Topic :: Scient", "ific/Engineering"); }

  /** Every classifier line is a non-empty single line. */
  lemma ClassifierLinesAreLines()
    ensures forall i :: 0 <= i < |ClassifierLines| ==> ClassifierLines[i] != "" && SingleLine(ClassifierLines[i])
  {
    ClassifierLine0();
    ClassifierLine1();
    ClassifierLine2();
    ClassifierLine3();
    ClassifierLine4();
    ClassifierLine5();
    ClassifierLine6();
    ClassifierLine7();
    ClassifierLine8();
    ClassifierLine9();
    ClassifierLine10();
  }

  /** Lines each ended by a newline, then one blank line: the non-empty
      pieces of that text are the lines. */
  lemma {:induction false} NonEmptyPiecesOfLines(lines: seq<string>)
    requires forall i :: 0 <= i < |lines| ==> lines[i] != "" && SingleLine(lines[i])
    ensures Classifiers(Join(lines + ["", ""], '\n')) == lines
  {
    var parts := lines + ["", ""];
    assert forall i :: 0 <= i < |parts| ==> '\n' !in parts[i] by {
      forall i | 0 <= i < |parts|
        ensures '\n' !in parts[i]
      {
        if i < |lines| {
          assert parts[i] == lines[i];
        }
      }
    }
    SplitJoin(parts, '\n');
    NonEmptyAppend(lines, ["", ""]);
    NonEmptyKeeps(lines);
    assert NonEmpty(["", ""]) == [];
  }

  /** The classifiers passed to setup are exactly the classifier lines, in
      order: the trailing empty pieces are dropped. */
  lemma ClassifiersAreTheLines()
    ensures Classifiers(ClassifierText) == ClassifierLines
  {
    ClassifierLinesAreLines();
    NonEmptyPiecesOfLines(ClassifierLines);
  }

  /** Tuple comparison `a < b`. */
  function TupleLess(a: seq<int>, b: seq<int>): bool {
    if |a| == 0 then |b| > 0
    else if |b| == 0 then false
    else if a[0] != b[0] then a[0] < b[0]
    else TupleLess(a[1..], b[1..])
  }

  lemma {:induction false} PairLess(a: int, b: int, c: int, d: int)
    ensures TupleLess([a, b], [c, d]) <==> a < c || (a == c && b < d)
  {
    assert [a, b][1..] == [b] && [c, d][1..] == [d];
    assert [b][1..] == [] && [d][1..] == [];
    assert !TupleLess([], []);
    assert TupleLess([b], [d]) <==> b < d;
  }

  /** The interpreter gate: `sys.version_info[:2] < (2, 7)` raises
      RuntimeError. */
  function CheckPython(versionInfo: seq<int>): (err: Option<PyError>)
    requires |versionInfo| >= 2
    ensures err.Some? <==> versionInfo[0] < 2 || (versionInfo[0] == 2 && versionInfo[1] < 7)
    ensures err.Some? ==> err.value == RuntimeError("Python version 2.7 required.")
  {
    var head := versionInfo[..2];
    assert head == [versionInfo[0], versionInfo[1]];
    PairLess(versionInfo[0], versionInfo[1], 2, 7);
    if TupleLess(head, [2, 7]) then Some(RuntimeError("Python version 2.7 required.")) else None
  }
}
