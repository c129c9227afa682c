/**
 * The version text of pkg/version/version.go. The build information and the
 * Go version are passed in; `None` stands for `debug.ReadBuildInfo`
 * reporting none, which the source dereferences anyway.
 */
module ExporterVersion {
  import opened Wrappers

  const Name: string := "speedtest-exporter"
  const CommitLength: nat := 7

  datatype BuildSetting = BuildSetting(key: string, value: string)

  datatype BuildInfo = BuildInfo(mainVersion: string, settings: seq<BuildSetting>)

  /** The value of the first `vcs.revision` setting, or "" without one. */
  function Revision(settings: seq<BuildSetting>): (rev: string)
    ensures rev != "" ==> exists i :: 0 <= i < |settings| && settings[i].key == "vcs.revision" && settings[i].value == rev
  {
    if settings == [] then ""
    else if settings[0].key == "vcs.revision" then settings[0].value
    else Revision(settings[1..])
  }

  /** An earlier `vcs.revision` setting hides any later one. */
  lemma {:induction false} RevisionIsFirst(settings: seq<BuildSetting>, i: nat)
    requires i < |settings| && settings[i].key == "vcs.revision"
    requires forall j :: 0 <= j < i ==> settings[j].key != "vcs.revision"
    ensures Revision(settings) == settings[i].value
  {
    if i > 0 {
      RevisionIsFirst(settings[1..], i - 1);
    }
  }

  /** The commit as printed: cut to seven characters, or "Unknown" when there is none. */
  function CommitLabel(commit: string): (printed: string)
    ensures 1 <= |printed| <= CommitLength
    ensures commit == "" ==> printed == "Unknown"
    ensures commit != "" ==> printed == commit[..if |commit| > CommitLength then CommitLength else |commit|]
  {
    if |commit| > CommitLength then commit[..CommitLength]
    else if commit == "" then "Unknown"
    else commit
  }

  function Lines(mainVersion: string, commit: string, goVersion: string): seq<string> {
    [Name + ":", "    Version: " + mainVersion, "    Commit:  " + commit, "    Go:      " + goVersion]
  }

  /** The lines joined, each ending in a newline. */
  function JoinLines(lines: seq<string>): string {
    if lines == [] then "" else JoinLines(lines[..|lines| - 1]) + (lines[|lines| - 1] + "\n")
  }

  /** `Version()`: the scan for the revision and the four-line text; `panicked` without build information. */
  method Version(buildinfo: Option<BuildInfo>, goVersion: string) returns (result: string, panicked: bool)
    ensures panicked <==> buildinfo.None?
    ensures buildinfo.Some? ==>
      result == JoinLines(Lines(buildinfo.value.mainVersion, CommitLabel(Revision(buildinfo.value.settings)), goVersion))
  {
    if buildinfo.None? {
      return "", true;
    }
    var settings := buildinfo.value.settings;
    var commit := "";
    var i := 0;
    while i < |settings|
      invariant 0 <= i <= |settings|
      invariant commit == ""
      invariant Revision(settings) == Revision(settings[i..])
    {
      assert settings[i..][1..] == settings[i + 1..];
      if settings[i].key == "vcs.revision" {
        commit := settings[i].value;
        break;
      }
      i := i + 1;
    }
    assert commit == Revision(settings);
    if |commit| > 7 {
      commit := commit[..7];
    } else if commit == "" {
      commit := "Unknown";
    }
    result := Name + ":\n";
    result := result + "    Version: " + buildinfo.value.mainVersion + "\n";
    result := result + "    Commit:  " + commit + "\n";
    result := result + "    Go:      " + goVersion + "\n";
    TextIsJoinedLines(buildinfo.value.mainVersion, commit, goVersion);
    panicked := false;
  }

  /** The text `Version` builds is its four lines, each with a trailing newline. */
  lemma TextIsJoinedLines(mainVersion: string, commit: string, goVersion: string)
    ensures Name + ":\n" + "    Version: " + mainVersion + "\n" + "    Commit:  " + commit + "\n"
      + "    Go:      " + goVersion + "\n" == JoinLines(Lines(mainVersion, commit, goVersion))
  {
    var lines := Lines(mainVersion, commit, goVersion);
    var text := Name + ":\n";
    assert lines[..1][..0] == [];
    assert text == JoinLines(lines[..1]);
    text := text + "    Version: " + mainVersion + "\n";
    assert lines[..2][..1] == lines[..1];
    assert text == JoinLines(lines[..2]);
    text := text + "    Commit:  " + commit + "\n";
    assert lines[..3][..2] == lines[..2];
    assert text == JoinLines(lines[..3]);
    text := text + "    Go:      " + goVersion + "\n";
    assert lines[..4][..3] == lines[..3] && lines[..4] == lines;
  }

  /** `strings.Split(s, "\n")`. */
  function SplitLines(s: string): (parts: seq<string>)
    ensures |parts| >= 1
    decreases |s|
  {
    if s == [] then [""]
    else
      var rest := SplitLines(s[1..]);
      if s[0] == '\n' then [""] + rest
      else [[s[0]] + rest[0]] + rest[1..]
  }

  predicate NoNewline(s: string) {
    forall i :: 0 <= i < |s| ==> s[i] != '\n'
  }

  /** Splitting a line followed by a newline yields that line, then the split of the rest. */
  lemma {:induction false} SplitLine(line: string, rest: string)
    requires NoNewline(line)
    ensures SplitLines(line + "\n" + rest) == [line] + SplitLines(rest)
    decreases |line|
  {
    if line == [] {
      assert line + "\n" + rest == "\n" + rest;
    } else {
      assert (line + "\n" + rest)[1..] == line[1..] + "\n" + rest;
      SplitLine(line[1..], rest);
      assert [line[0]] + line[1..] == line;
    }
  }

  /** Joining puts the first line and its newline in front of the rest. */
  lemma {:induction false} JoinLinesCons(lines: seq<string>)
    requires lines != []
    ensures JoinLines(lines) == lines[0] + "\n" + JoinLines(lines[1..])
  {
    var n := |lines|;
    if n == 1 {
      assert lines[..0] == [] && lines[1..] == [];
    } else {
      var init := lines[..n - 1];
      JoinLinesCons(init);
      assert lines[1..][..n - 2] == init[1..];
      assert init[0] == lines[0];
    }
  }

  /** Split on newlines, the joined lines come back with one empty part for the trailing newline. */
  lemma {:induction false} SplitJoinLines(lines: seq<string>)
    requires forall k :: 0 <= k < |lines| ==> NoNewline(lines[k])
    ensures SplitLines(JoinLines(lines)) == lines + [""]
  {
    if lines != [] {
      SplitJoinLines(lines[1..]);
      JoinLinesCons(lines);
      SplitLine(lines[0], JoinLines(lines[1..]));
    }
  }

  /** The text has five newline-separated parts, headed by the program name, with an empty last one. */
  lemma VersionText(mainVersion: string, commit: string, goVersion: string)
    requires NoNewline(mainVersion) && NoNewline(commit) && NoNewline(goVersion)
    ensures var parts := SplitLines(JoinLines(Lines(mainVersion, CommitLabel(commit), goVersion)));
      && |parts| == 5
      && parts[0] == "speedtest-exporter:"
      && parts[1] == "    Version: " + mainVersion
      && parts[2] == "    Commit:  " + CommitLabel(commit)
      && parts[3] == "    Go:      " + goVersion
      && parts[4] == ""
  {
    var printed := CommitLabel(commit);
    assert NoNewline(printed);
    var lines := Lines(mainVersion, printed, goVersion);
    assert forall k :: 0 <= k < |lines| ==> NoNewline(lines[k]);
    SplitJoinLines(lines);
  }
}
