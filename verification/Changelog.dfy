/** The release tools' changelog: inserting a release section, and taking one out again. */
module Changelog {
  import opened Options
  import opened Text

  function HeaderPrefix(version: string): string {
    "## " + version + " - "
  }

  /** The first line that starts with the prefix, or the number of lines. */
  function IndexOf(lines: seq<string>, prefix: string): (i: nat)
    ensures i <= |lines|
    ensures i < |lines| ==> StartsWith(lines[i], prefix)
    ensures forall k :: 0 <= k < i ==> !StartsWith(lines[k], prefix)
  {
    if lines == [] || StartsWith(lines[0], prefix) then 0 else 1 + IndexOf(lines[1..], prefix)
  }

  /** The regular expression `^prefix` in multi-line mode. */
  predicate MatchesAtLineStart(text: string, prefix: string) {
    StartsWith(text, prefix) || exists i :: 0 <= i < |text| && text[i] == '\n' && StartsWith(text[i + 1..], prefix)
  }

  function NonEmpty(parts: seq<string>): seq<string> {
    if parts == [] then []
    else (if parts[0] != "" then [parts[0]] else []) + NonEmpty(parts[1..])
  }

  /** The changelog with a new section, or `None` when it already has the version. */
  function Updated(existing: string, version: string, newSection: string): Option<string> {
    if MatchesAtLineStart(existing, HeaderPrefix(version)) then None
    else if Strip(existing) == "" then Some(newSection)
    else
      var lines := SplitLines(existing);
      var k := IndexOf(lines, "## ");
      var before := RStrip(Join(lines[..k], "\n"));
      var after := LStrip(Join(lines[k..], "\n"));
      var parts := [before, RStrip(newSection)] + (if after != "" then [after] else []);
      Some(Join(NonEmpty(parts), "\n\n") + "\n")
  }

  /** The lines from the version's header up to the next header. */
  function Section(lines: seq<string>, version: string): Option<seq<string>> {
    var i := IndexOf(lines, HeaderPrefix(version));
    if i == |lines| then None
    else Some(lines[i..i + 1 + IndexOf(lines[i + 1..], "## ")])
  }

  /** The body of a release, or `None` when the version is missing. */
  function Extracted(changelog: string, version: string): Option<string> {
    match Section(SplitLines(changelog), version)
    case None => None
    case Some(lines) => Some(RStrip(Join(lines, "\n")) + "\n")
  }

  lemma {:induction false} IndexIs(lines: seq<string>, from: nat, i: nat, prefix: string)
    requires from <= i <= |lines| && (i < |lines| ==> StartsWith(lines[i], prefix))
    requires forall k :: from <= k < i ==> !StartsWith(lines[k], prefix)
    ensures i == from + IndexOf(lines[from..], prefix)
  {
    var rest := lines[from..];
    assert forall k :: 0 <= k < |rest| ==> rest[k] == lines[from + k];
  }

  method UpdateChangelog(existing: string, version: string, newSection: string) returns (r: Option<string>)
    ensures r == Updated(existing, version, newSection)
  {
    hide StartsWith, RStrip, LStrip, Join, SplitLines, HeaderPrefix, NonEmpty, MatchesAtLineStart;
    if MatchesAtLineStart(existing, HeaderPrefix(version)) { return None; }
    if Strip(existing) == "" { return Some(newSection); }
    var lines := SplitLines(existing);
    var insertionIndex := |lines|;
    for index := 0 to |lines|
      invariant insertionIndex == |lines| && forall k :: 0 <= k < index ==> !StartsWith(lines[k], "## ")
    {
      if StartsWith(lines[index], "## ") {
        insertionIndex := index;
        break;
      }
    }
    IndexIs(lines, 0, insertionIndex, "## ");
    assert lines[0..] == lines;
    var before := RStrip(Join(lines[..insertionIndex], "\n"));
    var after := LStrip(Join(lines[insertionIndex..], "\n"));
    var parts := [before, RStrip(newSection)];
    if after != "" { parts := parts + [after]; }
    assert parts == [before, RStrip(newSection)] + (if after != "" then [after] else []);
    r := Some(Join(NonEmpty(parts), "\n\n") + "\n");
  }

  lemma {:induction false} NoSection(lines: seq<string>, version: string)
    ensures Section(lines, version).None? <==> forall k :: 0 <= k < |lines| ==> !StartsWith(lines[k], HeaderPrefix(version))
  {
    hide StartsWith;
    var i := IndexOf(lines, HeaderPrefix(version));
  }

  lemma {:induction false} SectionIs(lines: seq<string>, version: string, start: nat, end: nat)
    requires start < |lines| && start == IndexOf(lines, HeaderPrefix(version))
    requires start < end <= |lines| && end == start + 1 + IndexOf(lines[start + 1..], "## ")
    ensures Section(lines, version) == Some(lines[start..end])
  {
  }

  method ExtractReleaseBody(changelog: string, version: string) returns (r: Option<string>)
    ensures r == Extracted(changelog, version)
  {
    hide StartsWith, RStrip, Join, SplitLines, HeaderPrefix, IndexOf, Section;
    var lines := SplitLines(changelog);
    var startIndex, endIndex := None, |lines|;
    for index := 0 to |lines|
      invariant startIndex.None? && forall k :: 0 <= k < index ==> !StartsWith(lines[k], HeaderPrefix(version))
    {
      if StartsWith(lines[index], HeaderPrefix(version)) {
        startIndex := Some(index);
        break;
      }
    }
    if startIndex.None? {
      NoSection(lines, version);
      return None;
    }
    var start := startIndex.value;
    for index := start + 1 to |lines|
      invariant endIndex == |lines| && forall k :: start < k < index ==> !StartsWith(lines[k], "## ")
    {
      if StartsWith(lines[index], "## ") {
        endIndex := index;
        break;
      }
    }
    assert lines[0..] == lines;
    IndexIs(lines, 0, start, HeaderPrefix(version));
    IndexIs(lines, start + 1, endIndex, "## ");
    SectionIs(lines, version, start, endIndex);
    r := Some(RStrip(Join(lines[start..endIndex], "\n")) + "\n");
  }
}
