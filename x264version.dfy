/** x264's `version.py`: the API version from `#define X264_BUILD` in
    `x264.h`, the revision and commit hash from `git rev-list` (or from the
    `X264_VERSION` line of a released `x264_config.h`), and the four output
    formats. Files, `subprocess.run`, `shutil.which` and the `os.path` checks
    are inputs; `sys.exit` becomes the exit code of the result. */
module X264Version {
  import opened Wrappers
  import opened Strings
  import opened PyStr
  import Decimal

  const BuildPrefix: string := "#define X264_BUILD "
  const VersionPrefix: string := "#define X264_VERSION "

  /** The argument group: at most one of `--build`, `--revision`,
      `--commit-hash`, `--package-version`. */
  datatype Mode = Build | Revision | CommitHash | PackageVersion | Everything

  /** What one `git` run returned. */
  datatype GitRun = GitRun(returnCode: int, stdout: string)

  /** Everything the script reads from outside. */
  datatype Checkout = Checkout(
    x264h: seq<string>,          // lines of x264.h, each with its line end
    isGit: bool,                 // .git is a directory or a file
    haveGit: bool,               // a git executable is on the PATH
    revList: GitRun,             // git rev-list HEAD
    revListAhead: GitRun,        // git rev-list origin/master..HEAD
    status: GitRun,              // git status
    config: Option<seq<string>>) // lines of x264_config.h, if the file exists

  /** What the script prints on standard output (one entry per `print`) and
      its exit code; a Python exception ends it with code 1. */
  datatype Outcome = Outcome(printed: seq<string>, exitCode: int)

  // ---------------------------------------------------------------------------
  // The API version (lines 30-41)

  /** The stripped text after the 19-character prefix. */
  function BuildValue(line: string): string
    requires HasPrefix(line, BuildPrefix)
  {
    Strip(line[|BuildPrefix|..], Whitespace)
  }

  /** A line that ends the scan: it has the prefix and a non-empty value. */
  predicate GivesApiVersion(line: string)
  {
    HasPrefix(line, BuildPrefix) && BuildValue(line) != ""
  }

  /** The API version: the value of the first line that gives one. */
  function ApiVersion(lines: seq<string>): (r: Option<string>)
    ensures r.Some? ==> r.value != ""
  {
    if |lines| == 0 then None
    else if GivesApiVersion(lines[0]) then Some(BuildValue(lines[0]))
    else ApiVersion(lines[1..])
  }

  /** There is an API version iff some line gives one, and then it is the
      value of the first such line. */
  lemma {:induction false} ApiVersionIsFirstMatch(lines: seq<string>, i: nat)
    requires i < |lines| && GivesApiVersion(lines[i])
    requires forall j :: 0 <= j < i ==> !GivesApiVersion(lines[j])
    ensures ApiVersion(lines) == Some(BuildValue(lines[i]))
  {
    if i > 0 {
      ApiVersionIsFirstMatch(lines[1..], i - 1);
    }
  }

  lemma {:induction false} NoApiVersion(lines: seq<string>)
    ensures ApiVersion(lines).None? <==> forall j :: 0 <= j < |lines| ==> !GivesApiVersion(lines[j])
  {
    if |lines| > 0 {
      NoApiVersion(lines[1..]);
      assert forall j :: 1 <= j < |lines| ==> lines[j] == lines[1..][j - 1];
    }
  }

  /** The scan of `x264.h`: a matching line overwrites `api_version`, and the
      loop stops once it is non-empty. What is left is the API version, or
      None or the empty string when there is none. */
  method ScanApiVersion(lines: seq<string>) returns (api: Option<string>)
    ensures ApiVersion(lines).Some? ==> api == ApiVersion(lines)
    ensures ApiVersion(lines).None? ==> api.None? || api.value == ""
  {
    api := None;
    var i := 0;
    while i < |lines|
      invariant 0 <= i <= |lines|
      invariant api.None? || api.value == ""
      invariant ApiVersion(lines[i..]) == ApiVersion(lines)
    {
      var line := lines[i];
      assert lines[i..][0] == line && lines[i..][1..] == lines[i + 1..];
      if HasPrefix(line, BuildPrefix) {
        api := Some(Strip(line[19..], Whitespace));
      }
      if api.Some? && api.value != "" {
        return;
      }
      i := i + 1;
    }
  }

  // ---------------------------------------------------------------------------
  // Revision and commit from git (lines 55-83)

  function StdoutLines(out: string): seq<string>
  {
    SplitOn(Strip(out, Whitespace), '\n')
  }

  /** `len(out.strip().split('\n'))`. */
  function LineCount(out: string): nat
  {
    |StdoutLines(out)|
  }

  /** A line count is one more than the newlines inside the stripped output:
      at least 1, and 1 for an empty output. */
  lemma LineCountAtLeastOne(out: string)
    ensures LineCount(out) == CountChar(Strip(out, Whitespace), '\n') + 1
    ensures LineCount(out) >= 1
    ensures Strip(out, Whitespace) == "" ==> LineCount(out) == 1
  {
    SplitOnProperties(Strip(out, Whitespace), '\n');
  }

  /** `out.strip().split('\n').pop(0)[0:7]`. */
  function FirstLineHash(out: string): string
  {
    Slice(StdoutLines(out)[0], 0, 7)
  }

  /** The commit hash is at most 7 characters, the start of the stripped
      output, and contains no line break. */
  lemma FirstLineHashIsPrefix(out: string)
    ensures var h := FirstLineHash(out);
      |h| <= 7 && HasPrefix(Strip(out, Whitespace), h) && (forall j :: 0 <= j < |h| ==> h[j] != '\n')
      && |h| == (if |StdoutLines(out)[0]| < 7 then |StdoutLines(out)[0]| else 7)
  {
    SplitOnProperties(Strip(out, Whitespace), '\n');
  }

  /** The revision text of lines 70-83: `ver = localver - ver_diff`,
      `"{ver}+{diff}"` or `"{ver}"`, then `M` when git status reports a
      modification. */
  function RevisionText(localver: nat, verDiff: nat, modified: bool): string
  {
    var ver := localver - verDiff;
    (if verDiff != 0 then Decimal.IntToString(ver) + "+" + Decimal.IntToString(verDiff)
     else Decimal.IntToString(ver))
    + (if modified then "M" else "")
  }

  /** The `<ver>+<diff>` form reads back to `ver`. */
  lemma PlusTextReadsBack(ver: int, verDiff: nat, modified: bool)
    ensures var b := Decimal.IntToString(verDiff);
      var t := Decimal.IntToString(ver) + "+" + b + (if modified then "M" else "");
      Decimal.Atoi(t) == ver && (t[|t| - 1] == 'M' <==> modified) && '+' in t
  {
    var a := Decimal.IntToString(ver);
    var b := Decimal.IntToString(verDiff);
    var m := if modified then "M" else "";
    var rest := "+" + b + m;
    assert a + "+" + b + m == a + rest;
    assert (a + rest)[|a|] == '+';
    Decimal.AtoiOfIntToStringThen(ver, rest);
  }

  /** The `<ver>` form reads back to `ver`. */
  lemma PlainTextReadsBack(ver: int, modified: bool)
    ensures var t := Decimal.IntToString(ver) + (if modified then "M" else "");
      Decimal.Atoi(t) == ver && (t[|t| - 1] == 'M' <==> modified) && '+' !in t
  {
    var a := Decimal.IntToString(ver);
    var m := if modified then "M" else "";
    Decimal.AtoiOfIntToStringThen(ver, m);
    forall k | 0 <= k < |a + m|
      ensures (a + m)[k] != '+'
    {
      if k >= |a| {
        assert (a + m)[k] == m[k - |a|];
      } else if k == 0 {
        assert a[0] == '-' || Decimal.IsDigit(a[0]);
      } else {
        assert Decimal.IsDigit(a[k]);
      }
    }
  }

  /** The revision text reads back: `atoi` of it is `localver - ver_diff`,
      it ends in `M` exactly when modified, and it holds a `+` exactly when
      `ver_diff` is not 0. */
  lemma RevisionTextReadsBack(localver: nat, verDiff: nat, modified: bool)
    ensures var t := RevisionText(localver, verDiff, modified);
      Decimal.Atoi(t) == localver - verDiff && (t[|t| - 1] == 'M' <==> modified)
      && ('+' in t <==> verDiff != 0)
  {
    if verDiff != 0 {
      PlusTextReadsBack(localver - verDiff, verDiff, modified);
    } else {
      PlainTextReadsBack(localver - verDiff, modified);
    }
  }

  /** `ver_diff` is a line count, so it is never 0: whenever there is more
      than one commit the revision has the `+` form. */
  lemma RevisionAlwaysHasPlus(c: Checkout)
    requires LineCount(c.revList.stdout) > 1
    ensures var d := LineCount(c.revListAhead.stdout);
      RevisionText(LineCount(c.revList.stdout), d, Contains(c.status.stdout, "modified:"))
      == Decimal.IntToString(LineCount(c.revList.stdout) - d) + "+" + Decimal.IntToString(d)
         + (if Contains(c.status.stdout, "modified:") then "M" else "")
  {
    LineCountAtLeastOne(c.revListAhead.stdout);
  }

  // ---------------------------------------------------------------------------
  // The tarball's x264_config.h (lines 85-91)

  /** `line[21:].strip().strip('"').strip().split()`. */
  function VersionTokens(line: string): seq<string>
    requires HasPrefix(line, VersionPrefix)
  {
    SplitWhitespace(Strip(Strip(Strip(line[|VersionPrefix|..], Whitespace), OnlyChar('"')), Whitespace))
  }

  /** The (ver, commit) a version line sets: the first token without its
      first character and the last token; None when there are no tokens
      (the `[-1]` raises IndexError). */
  function VersionFields(line: string): Option<(string, string)>
    requires HasPrefix(line, VersionPrefix)
  {
    var toks := VersionTokens(line);
    if |toks| == 0 then None else Some((Slice(toks[0], 1, |toks[0]|), toks[|toks| - 1]))
  }

  /** The tarball loop from (ver, head): each version line overwrites both;
      None when a version line has no tokens. */
  function TarballScan(lines: seq<string>, ver: string, head: string): Option<(string, string)>
  {
    if |lines| == 0 then Some((ver, head))
    else if HasPrefix(lines[0], VersionPrefix) then
      match VersionFields(lines[0])
      case None => None
      case Some(f) => TarballScan(lines[1..], f.0, f.1)
    else TarballScan(lines[1..], ver, head)
  }

  predicate VersionLineOk(line: string)
  {
    HasPrefix(line, VersionPrefix) ==> VersionFields(line).Some?
  }

  /** The last version line wins: when every version line has tokens, the
      result is the fields of the last one, or the starting values when there
      is none. */
  lemma {:induction false} TarballLastLineWins(lines: seq<string>, ver: string, head: string, k: int)
    requires forall j :: 0 <= j < |lines| ==> VersionLineOk(lines[j])
    requires -1 <= k < |lines|
    requires k >= 0 ==> HasPrefix(lines[k], VersionPrefix)
    requires forall j :: k < j < |lines| ==> !HasPrefix(lines[j], VersionPrefix)
    ensures TarballScan(lines, ver, head) ==
            if k < 0 then Some((ver, head)) else VersionFields(lines[k])
  {
    if |lines| > 0 {
      assert forall j :: 0 <= j < |lines[1..]| ==> lines[1..][j] == lines[j + 1];
      assert VersionLineOk(lines[0]);
      if HasPrefix(lines[0], VersionPrefix) {
        var f := VersionFields(lines[0]).value;
        TarballLastLineWins(lines[1..], f.0, f.1, if k <= 0 then -1 else k - 1);
      } else {
        TarballLastLineWins(lines[1..], ver, head, if k <= 0 then -1 else k - 1);
      }
    }
  }

  /** A version line without tokens makes the scan fail. */
  lemma {:induction false} TarballEmptyLineFails(lines: seq<string>, ver: string, head: string, k: nat)
    requires k < |lines| && HasPrefix(lines[k], VersionPrefix) && VersionFields(lines[k]).None?
    ensures TarballScan(lines, ver, head).None?
  {
    if k > 0 {
      if HasPrefix(lines[0], VersionPrefix) {
        match VersionFields(lines[0])
        case None =>
        case Some(f) => TarballEmptyLineFails(lines[1..], f.0, f.1, k - 1);
      } else {
        TarballEmptyLineFails(lines[1..], ver, head, k - 1);
      }
    }
  }

  /** The `for line in f` loop over `x264_config.h`. */
  method ScanTarball(lines: seq<string>, ver0: string, head0: string)
    returns (ok: bool, ver: string, head: string)
    ensures ok <==> TarballScan(lines, ver0, head0).Some?
    ensures ok ==> (ver, head) == TarballScan(lines, ver0, head0).value
  {
    ver, head := ver0, head0;
    var i := 0;
    while i < |lines|
      invariant 0 <= i <= |lines|
      invariant TarballScan(lines[i..], ver, head) == TarballScan(lines, ver0, head0)
    {
      var line := lines[i];
      assert lines[i..][0] == line && lines[i..][1..] == lines[i + 1..];
      if HasPrefix(line, VersionPrefix) {
        var fields := VersionFields(line);
        if fields.None? {
          return false, ver, head;
        }
        head := fields.value.1;
        ver := fields.value.0;
      }
      i := i + 1;
    }
    ok := true;
  }

  // ---------------------------------------------------------------------------
  // The whole script

  /** How the revision and commit were found (lines 47-98). */
  datatype Versions =
    | Found(ver: string, head: string)
    | NoVersionSource   // neither git nor x264_config.h
    | Aborted(code: int) // a git failure (-1) or a Python exception (1)

  predicate IsAscii(s: string)
  {
    forall i :: 0 <= i < |s| ==> s[i] < '\U{80}'
  }

  /** The revision and commit from the checkout. */
  function VersionsOf(c: Checkout): Versions
  {
    if c.isGit && c.haveGit then
      if c.revList.returnCode != 0 then Aborted(-1)
      else if !IsAscii(c.revList.stdout) then Aborted(1)
      else
        var localver := LineCount(c.revList.stdout);
        var head := FirstLineHash(c.revList.stdout);
        if localver <= 1 then Found("0", head)
        else if c.revListAhead.returnCode != 0 then Aborted(-1)
        else if !IsAscii(c.revListAhead.stdout) then Aborted(1)
        else if c.status.returnCode != 0 then Aborted(-1)
        else Found(RevisionText(localver, LineCount(c.revListAhead.stdout), Contains(c.status.stdout, "modified:")), head)
    else if c.config.Some? then
      match TarballScan(c.config.value, "0", "x")
      case None => Aborted(1)
      case Some(f) => Found(f.0, f.1)
    else NoVersionSource
  }

  /** The line printed for each mode other than `--build`. */
  function Render(mode: Mode, api: string, ver: string, head: string): string
  {
    match mode
    case Revision => ver
    case CommitHash => head
    case PackageVersion => "0." + api + "." + ver
    case _ => "0." + api + "." + ver + " " + head
  }

  /** Lines 55-83: the revision and commit from git; `localver` and
      `ver_diff` are line counts of the two `rev-list` outputs. */
  method GitVersions(c: Checkout) returns (v: Versions)
    requires c.isGit && c.haveGit
    ensures v == VersionsOf(c)
  {
    if c.revList.returnCode != 0 {
      return Aborted(-1);
    }
    if !IsAscii(c.revList.stdout) {
      return Aborted(1);
    }
    var lines := SplitOn(Strip(c.revList.stdout, Whitespace), '\n');
    var localver := |lines|;
    var head := Slice(lines[0], 0, 7);
    var ver := "0";
    if localver > 1 {
      if c.revListAhead.returnCode != 0 {
        return Aborted(-1);
      }
      if !IsAscii(c.revListAhead.stdout) {
        return Aborted(1);
      }
      var verDiff := |SplitOn(Strip(c.revListAhead.stdout, Whitespace), '\n')|;
      var n := localver - verDiff;
      if verDiff != 0 {
        ver := Decimal.IntToString(n) + "+" + Decimal.IntToString(verDiff);
      } else {
        ver := Decimal.IntToString(n);
      }
      if c.status.returnCode != 0 {
        return Aborted(-1);
      }
      var modified := Contains(c.status.stdout, "modified:");
      if modified {
        ver := ver + "M";
      }
      assert ver == RevisionText(localver, verDiff, modified);
    }
    return Found(ver, head);
  }

  /** Lines 47-98: the revision and commit, from git when this is a git
      checkout and git is available, else from the tarball's config file. */
  method FindVersions(c: Checkout) returns (v: Versions)
    ensures v == VersionsOf(c)
  {
    if c.isGit && c.haveGit {
      v := GitVersions(c);
    } else if c.config.Some? {
      var ok, ver, head := ScanTarball(c.config.value, "0", "x");
      if !ok {
        return Aborted(1);
      }
      return Found(ver, head);
    } else {
      return NoVersionSource;
    }
  }

  /** The script: `--build` needs only `x264.h`; every other mode prints one
      line built from the revision and the commit. Without an API version it
      exits with -1 and prints nothing; without any version source it prints
      `0.<api>.999` and exits with -1. */
  method Run(mode: Mode, c: Checkout) returns (r: Outcome)
    ensures ApiVersion(c.x264h).None? ==> r == Outcome([], -1)
    ensures ApiVersion(c.x264h).Some? && mode == Build ==> r == Outcome([ApiVersion(c.x264h).value], 0)
    ensures ApiVersion(c.x264h).Some? && mode != Build ==>
      var api := ApiVersion(c.x264h).value;
      match VersionsOf(c)
      case Found(ver, head) => r == Outcome([Render(mode, api, ver, head)], 0)
      case NoVersionSource => r == Outcome(["0." + api + ".999"], -1)
      case Aborted(code) => r == Outcome([], code)
  {
    var api := ScanApiVersion(c.x264h);
    if api.None? || api.value == "" {
      return Outcome([], -1);
    }
    if mode == Build {
      return Outcome([api.value], 0);
    }
    var versions := FindVersions(c);
    match versions
    case Aborted(code) =>
      r := Outcome([], code);
    case NoVersionSource =>
      r := Outcome(["0." + api.value + ".999"], -1);
    case Found(ver, head) =>
      if mode == Revision {
        r := Outcome([ver], 0);
      } else if mode == CommitHash {
        r := Outcome([head], 0);
      } else if mode == PackageVersion {
        r := Outcome(["0." + api.value + "." + ver], 0);
      } else {
        r := Outcome(["0." + api.value + "." + ver + " " + head], 0);
      }
  }
}
