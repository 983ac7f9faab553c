/** Inserting a release section and extracting a version's body fit together. */
module ChangelogTheorems {
  import opened Options
  import opened Text
  import opened Changelog

  ghost predicate NoHeader(lines: seq<string>) {
    forall i :: 0 <= i < |lines| ==> !StartsWith(lines[i], "## ")
  }

  ghost predicate NoVersion(lines: seq<string>, version: string) {
    forall i :: 0 <= i < |lines| ==> !StartsWith(lines[i], HeaderPrefix(version))
  }

  /** A section of its own: it opens with the version's header, with something after it, and has no other header. */
  ghost predicate IsReleaseSection(section: string, version: string) {
    && NewlineText(section) && Single(version)
    && StartsWith(RStrip(section), HeaderPrefix(version))
    && NoHeader(SplitLines(section)[1..])
  }

  // Sections in lists of lines

  lemma {:induction false} HeaderOfVersion(line: string, version: string)
    requires StartsWith(line, HeaderPrefix(version))
    ensures StartsWith(line, "## ")
  {
    assert HeaderPrefix(version)[..3] == "## ";
    assert line[..3] == line[..|HeaderPrefix(version)|][..3];
  }

  lemma {:induction false} NoHeaderNoVersion(lines: seq<string>, version: string)
    requires NoHeader(lines)
    ensures NoVersion(lines, version)
  {
    hide StartsWith, HeaderPrefix;
    forall i | 0 <= i < |lines| ensures !StartsWith(lines[i], HeaderPrefix(version)) {
      if StartsWith(lines[i], HeaderPrefix(version)) { HeaderOfVersion(lines[i], version); }
    }
  }

  lemma {:induction false} IndexSkips(lead: seq<string>, rest: seq<string>, prefix: string)
    requires forall i :: 0 <= i < |lead| ==> !StartsWith(lead[i], prefix)
    ensures IndexOf(lead + rest, prefix) == |lead| + IndexOf(rest, prefix)
  {
    hide StartsWith, IndexOf;
    var all, i := lead + rest, |lead| + IndexOf(rest, prefix);
    assert all[0..] == all;
    assert forall k :: 0 <= k < i ==> all[k] == if k < |lead| then lead[k] else rest[k - |lead|];
    IndexIs(all, 0, i, prefix);
  }

  /** Lines without the version's header before a section do not matter. */
  lemma {:induction false} SectionSkips(lead: seq<string>, rest: seq<string>, version: string)
    requires NoVersion(lead, version)
    ensures Section(lead + rest, version) == Section(rest, version)
  {
    hide StartsWith, IndexOf, HeaderPrefix;
    var all, n := lead + rest, |lead|;
    IndexSkips(lead, rest, HeaderPrefix(version));
    var i := IndexOf(rest, HeaderPrefix(version));
    if i < |rest| {
      assert all[n + i + 1..] == rest[i + 1..];
      var m := IndexOf(rest[i + 1..], "## ");
      assert all[n + i..n + i + 1 + m] == rest[i..i + 1 + m];
    }
  }

  /** A section ends where the next header begins. */
  lemma {:induction false} SectionEnds(body: seq<string>, tail: seq<string>, version: string)
    requires body != [] && StartsWith(body[0], HeaderPrefix(version)) && NoHeader(body[1..])
    requires tail != [] ==> StartsWith(tail[0], "## ")
    ensures Section(body + tail, version) == Some(body)
  {
    hide StartsWith, HeaderPrefix;
    var all := body + tail;
    assert all[1..] == body[1..] + tail;
    IndexSkips(body[1..], tail, "## ");
    assert IndexOf(all, HeaderPrefix(version)) == 0;
    assert all[0..|body|] == body;
  }

  lemma {:induction false} HeadersOfPrefix(p: string, s: string)
    requires NewlineText(s) && p <= s && NoHeader(SplitLines(s))
    ensures NoHeader(SplitLines(p))
  {
    hide SplitLines, NewlineText;
    LinesOfPrefix(p, s);
    forall i | 0 <= i < |SplitLines(p)| ensures !StartsWith(SplitLines(p)[i], "## ") {
      PrefixStarts(SplitLines(p)[i], SplitLines(s)[i], "## ");
    }
  }

  lemma {:induction false} PrefixStarts(p: string, s: string, prefix: string)
    requires p <= s
    ensures StartsWith(p, prefix) ==> StartsWith(s, prefix)
  {
    if StartsWith(p, prefix) { assert s[..|prefix|] == p[..|prefix|]; }
  }

  // The lines of an updated changelog

  ghost function Before(existing: string): string {
    var lines := SplitLines(existing);
    RStrip(Join(lines[..IndexOf(lines, "## ")], "\n"))
  }

  ghost function Lead(existing: string): seq<string> {
    if Before(existing) == "" then [] else SplitLines(Before(existing)) + [""]
  }

  /** The lines from the first header on. */
  ghost function Rest(existing: string): seq<string> {
    var lines := SplitLines(existing);
    lines[IndexOf(lines, "## ")..]
  }

  lemma {:induction false} UnlinesIsNewlineText(lines: seq<string>)
    requires AllSingle(lines)
    ensures NewlineText(Unlines(lines))
  {
    if lines != [] {
      AllSingleSplits(lines);
      UnlinesIsNewlineText(lines[1..]);
    }
  }

  lemma {:induction false} SlicesAreSingle(lines: seq<string>, k: nat)
    requires AllSingle(lines) && k <= |lines|
    ensures AllSingle(lines[..k]) && AllSingle(lines[k..])
  {
    hide Single;
  }

  lemma {:induction false} ConcatIsSingle(a: seq<string>, b: seq<string>)
    requires AllSingle(a) && AllSingle(b)
    ensures AllSingle(a + b)
  {
    hide Single;
  }

  lemma {:induction false} JoinIsPrefix(lines: seq<string>)
    ensures Join(lines, "\n") <= Unlines(lines)
  {
    if lines != [] { JoinUnlines(lines); }
  }

  lemma {:induction false} PrefixIsNewlineText(p: string, s: string)
    requires NewlineText(s) && p <= s
    ensures NewlineText(p)
  {
  }

  lemma {:induction false} EndsInText(s: string)
    requires NewlineText(s) && s != "" && !IsSpace(s[|s| - 1])
    ensures Unlines(SplitLines(s)) == s + "\n" && AllSingle(SplitLines(s))
  {
    UnlinesOfSplit(s);
  }

  lemma {:induction false} BlankLine()
    ensures Unlines([""]) == "\n" && AllSingle([""]) && NoHeader([""])
  {
  }

  /** What precedes the new section: no header, and it reads as the text before, a blank line after it. */
  lemma {:induction false} LeadLines(existing: string)
    requires NewlineText(existing)
    ensures AllSingle(Lead(existing)) && NoHeader(Lead(existing))
    ensures Unlines(Lead(existing)) == if Before(existing) == "" then "" else Before(existing) + "\n\n"
  {
    hide Single, SplitLines, NewlineText, RStrip, Join, IsSpace, StartsWith;
    var lines := SplitLines(existing);
    var head := lines[..IndexOf(lines, "## ")];
    UnlinesOfSplit(existing);
    SlicesAreSingle(lines, IndexOf(lines, "## "));
    var before := Before(existing);
    if before != "" {
      RStripIsPrefix(Join(head, "\n"));
      JoinIsPrefix(head);
      UnlinesIsNewlineText(head);
      SplitUnlines(head);
      assert before <= Unlines(head);
      HeadersOfPrefix(before, Unlines(head));
      PrefixIsNewlineText(before, Unlines(head));
      EndsInText(before);
      BlankLine();
      ConcatIsSingle(SplitLines(before), [""]);
      UnlinesConcat(SplitLines(before), [""]);
      hide IndexOf;
    }
  }

  lemma {:induction false} RestIsAfter(existing: string)
    requires NewlineText(existing)
    ensures AllSingle(Rest(existing))
    ensures Rest(existing) != [] ==> StartsWith(Rest(existing)[0], "## ")
    ensures var after := LStrip(Join(Rest(existing), "\n"));
      if Rest(existing) == [] then after == "" else after != "" && after + "\n" == Unlines(Rest(existing))
  {
    hide Single, SplitLines, NewlineText, LStrip, Join, StartsWith;
    var lines := SplitLines(existing);
    UnlinesOfSplit(existing);
    SlicesAreSingle(lines, IndexOf(lines, "## "));
    NothingToStrip();
    var rest := Rest(existing);
    if rest != [] {
      JoinUnlines(rest);
      FirstOfJoin(rest);
      NotStripped(Join(rest, "\n"));
    }
  }

  lemma {:induction false} NothingToStrip()
    ensures LStrip(Join([], "\n")) == ""
  {
  }

  lemma {:induction false} FirstOfJoin(lines: seq<string>)
    requires lines != [] && StartsWith(lines[0], "## ")
    ensures Join(lines, "\n") != "" && Join(lines, "\n")[0] == '#'
  {
    assert lines[0][..3][0] == '#';
  }

  lemma {:induction false} NotStripped(s: string)
    requires s != "" && s[0] == '#'
    ensures LStrip(s) == s
  {
  }

  lemma {:induction false} NonEmptyStep(part: string, parts: seq<string>)
    ensures NonEmpty([part] + parts) == if part == "" then NonEmpty(parts) else [part] + NonEmpty(parts)
    ensures NonEmpty([]) == []
  {
    assert ([part] + parts)[1..] == parts;
    assert [] + NonEmpty(parts) == NonEmpty(parts);
  }

  lemma {:induction false} JoinStep(part: string, parts: seq<string>, separator: string)
    ensures Join([part] + parts, separator) == if parts == [] then part else part + separator + Join(parts, separator)
  {
    assert ([part] + parts)[1..] == parts;
  }

  lemma {:induction false} JoinParts(before: string, section: string, after: string)
    requires section != ""
    ensures Join(NonEmpty([before, section] + (if after != "" then [after] else [])), "\n\n")
         == (if before == "" then "" else before + "\n\n") + section + (if after == "" then "" else "\n\n" + after)
  {
    hide NonEmpty, Join;
    var lead := if before == "" then "" else before + "\n\n";
    NonEmptyStep("", []);
    if after == "" {
      TwoParts(before, section, []);
      assert lead + section + "" == lead + section;
    } else {
      TwoParts(before, section, [after]);
      NonEmptyStep(after, []);
      JoinStep(after, [], "\n\n");
      assert [after] + [] == [after];
      assert lead + section + ("\n\n" + after) == lead + (section + "\n\n" + after);
    }
  }

  lemma {:induction false} TwoParts(before: string, section: string, last: seq<string>)
    requires section != "" && |last| <= 1
    ensures Join(NonEmpty([before, section] + last), "\n\n")
         == (if before == "" then "" else before + "\n\n")
            + (if NonEmpty(last) == [] then section else section + "\n\n" + Join(NonEmpty(last), "\n\n"))
  {
    hide NonEmpty, Join;
    var rest := NonEmpty(last);
    assert [before, section] + last == [before] + ([section] + last);
    NonEmptyStep(before, [section] + last);
    NonEmptyStep(section, last);
    JoinStep(section, rest, "\n\n");
    JoinStep(before, [section] + rest, "\n\n");
  }

  lemma {:induction false} UpdatedText(existing: string, version: string, section: string)
    requires Updated(existing, version, section).Some? && Strip(existing) != ""
    ensures var after := LStrip(Join(Rest(existing), "\n"));
      Updated(existing, version, section).value
      == Join(NonEmpty([Before(existing), RStrip(section)] + (if after != "" then [after] else [])), "\n\n") + "\n"
  {
    hide Strip, LStrip, RStrip, Join, NonEmpty, SplitLines, IndexOf, MatchesAtLineStart, HeaderPrefix;
  }

  /** The updated changelog, line by line. */
  lemma {:induction false} UpdatedLines(existing: string, version: string, section: string)
    requires NewlineText(existing) && IsReleaseSection(section, version)
    requires Updated(existing, version, section).Some? && Strip(existing) != ""
    ensures SplitLines(Updated(existing, version, section).value)
         == Lead(existing) + (SplitLines(RStrip(section)) + (if Rest(existing) == [] then [] else [""] + Rest(existing)))
  {
    hide Single, SplitLines, NewlineText, RStrip, LStrip, Strip, Join, IsSpace, StartsWith, MatchesAtLineStart, NonEmpty, HeaderPrefix, IndexOf,
         NoHeader, Updated, Before, Lead, Rest;
    var body := RStrip(section);
    var rest := Rest(existing);
    var after := LStrip(Join(rest, "\n"));
    SectionText(section, version);
    LeadLines(existing);
    RestIsAfter(existing);
    UpdatedText(existing, version, section);
    JoinParts(Before(existing), body, after);
    BlankLine();
    var tail := if rest == [] then [] else [""] + rest;
    UnlinesConcat([""], rest);
    UnlinesConcat(SplitLines(body), tail);
    UnlinesConcat(Lead(existing), SplitLines(body) + tail);
    ConcatIsSingle([""], rest);
    ConcatIsSingle(SplitLines(body), tail);
    ConcatIsSingle(Lead(existing), SplitLines(body) + tail);
    SplitUnlines(Lead(existing) + (SplitLines(body) + tail));
    Assembled(if Before(existing) == "" then "" else Before(existing) + "\n\n", body, after);
  }

  lemma {:induction false} Assembled(lead: string, body: string, after: string)
    ensures lead + body + ("\n\n" + after) + "\n" == lead + ((body + "\n") + ("\n" + (after + "\n")))
    ensures lead + body + "" + "\n" == lead + ((body + "\n") + "")
  {
  }

  lemma {:induction false} SectionText(section: string, version: string)
    requires IsReleaseSection(section, version)
    ensures var body := RStrip(section);
      && body != "" && RStrip(body) == body
      && AllSingle(SplitLines(body)) && Unlines(SplitLines(body)) == body + "\n"
      && SplitLines(body) != [] && StartsWith(SplitLines(body)[0], HeaderPrefix(version)) && NoHeader(SplitLines(body)[1..])
  {
    hide SplitLines, IsSpace, NewlineText, Single;
    var body := RStrip(section);
    RStripIsPrefix(section);
    PrefixIsNewlineText(body, section);
    EndsInText(body);
    LinesOfPrefix(body, section);
    HeaderLine(body, version);
    forall i | 0 <= i < |SplitLines(body)[1..]| ensures !StartsWith(SplitLines(body)[1..][i], "## ") {
      assert SplitLines(section)[1..][i] == SplitLines(section)[i + 1];
      PrefixStarts(SplitLines(body)[i + 1], SplitLines(section)[i + 1], "## ");
    }
  }

  /** A header without breaks lies in the first line. */
  lemma {:induction false} HeaderLine(text: string, version: string)
    requires Single(version) && StartsWith(text, HeaderPrefix(version))
    ensures SplitLines(text) != [] && StartsWith(SplitLines(text)[0], HeaderPrefix(version))
  {
    var prefix, i := HeaderPrefix(version), FirstBreak(text);
    FirstLine(text);
    PrefixIsSingle(version);
    assert forall k :: 0 <= k < |prefix| ==> prefix[k] == text[..|prefix|][k] == text[k];
    assert text[..i][..|prefix|] == text[..|prefix|];
  }

  // Main results

  /**
   * After a successful update, extracting the new version gives back the section, up to trailing
   * whitespace.
   */
  lemma {:induction false} InsertedSectionIsFound(existing: string, version: string, section: string)
    requires NewlineText(existing) && IsReleaseSection(section, version)
    requires Updated(existing, version, section).Some?
    ensures Extracted(Updated(existing, version, section).value, version) == Some(RStrip(section) + "\n")
  {
    if Strip(existing) == "" {
      WholeSection(section, version);
    } else {
      InsertedBetween(existing, version, section);
    }
  }

  lemma {:induction false} InsertedBetween(existing: string, version: string, section: string)
    requires NewlineText(existing) && IsReleaseSection(section, version)
    requires Updated(existing, version, section).Some? && Strip(existing) != ""
    ensures Extracted(Updated(existing, version, section).value, version) == Some(RStrip(section) + "\n")
  {
    hide *;
    var body, rest := RStrip(section), Rest(existing);
    UpdatedLines(existing, version, section);
    SectionText(section, version);
    LeadLines(existing);
    RestIsAfter(existing);
    NoHeaderNoVersion(Lead(existing), version);
    var tail := if rest == [] then [] else [""] + rest;
    SectionSkips(Lead(existing), SplitLines(body) + tail, version);
    var found := if rest == [] then SplitLines(body) else SplitLines(body) + [""];
    BodyWithBlank(SplitLines(body));
    assert SplitLines(body) + tail == found + rest;
    SectionEnds(found, rest, version);
    JoinBody(body);
    BodyOf(Updated(existing, version, section).value, version, found);
  }

  lemma {:induction false} BodyOf(text: string, version: string, lines: seq<string>)
    requires Section(SplitLines(text), version) == Some(lines)
    ensures Extracted(text, version) == Some(RStrip(Join(lines, "\n")) + "\n")
  {
    hide Section, SplitLines, RStrip, Join;
  }

  lemma {:induction false} BodyWithBlank(body: seq<string>)
    requires body != [] && NoHeader(body[1..])
    ensures NoHeader((body + [""])[1..]) && body + [] == body && (body + [""])[0] == body[0]
  {
    assert (body + [""])[1..] == body[1..] + [""];
  }

  lemma {:induction false} JoinBody(body: string)
    requires body != "" && RStrip(body) == body && Unlines(SplitLines(body)) == body + "\n" && SplitLines(body) != []
    ensures RStrip(Join(SplitLines(body), "\n")) == body
    ensures RStrip(Join(SplitLines(body) + [""], "\n")) == body
  {
    hide SplitLines, RStrip, Join;
    var lines := SplitLines(body);
    JoinUnlines(lines);
    assert Join(lines, "\n") == (Join(lines, "\n") + "\n")[..|body|] == body;
    JoinUnlines(lines + [""]);
    UnlinesConcat(lines, [""]);
    BlankLine();
    assert Join(lines + [""], "\n") == (Join(lines + [""], "\n") + "\n")[..|body| + 1] == body + "\n";
    RStripNewline(body);
  }

  /** The first section becomes the whole changelog. */
  lemma {:induction false} WholeSection(section: string, version: string)
    requires IsReleaseSection(section, version)
    ensures Extracted(section, version) == Some(RStrip(section) + "\n")
  {
    hide Single, SplitLines, NewlineText, RStrip, Join, StartsWith, HeaderPrefix, NoHeader, Section;
    var lines := SplitLines(section);
    SectionStarts(section, version);
    SectionEnds(lines, [], version);
    assert lines + [] == lines;
    UnlinesOfSplit(section);
    JoinUnlines(lines);
    var joined := Join(lines, "\n");
    assert joined == (joined + "\n")[..|joined|];
    if section[|section| - 1] == '\n' {
      assert section == joined + "\n";
      RStripNewline(joined);
    } else {
      assert joined == section;
    }
  }

  lemma {:induction false} SectionStarts(section: string, version: string)
    requires IsReleaseSection(section, version)
    ensures SplitLines(section) != [] && StartsWith(SplitLines(section)[0], HeaderPrefix(version)) && section != ""
  {
    RStripIsPrefix(section);
    PrefixStarts(RStrip(section), section, HeaderPrefix(version));
    HeaderLine(section, version);
  }

  /** Extracting any other version gives what it gave before, found or missing. */
  lemma {:induction false} OtherVersionsAreKept(existing: string, version: string, section: string, other: string)
    requires NewlineText(existing) && IsReleaseSection(section, version)
    requires Updated(existing, version, section).Some?
    requires !StartsWith(SplitLines(section)[0], HeaderPrefix(other))
    ensures Extracted(Updated(existing, version, section).value, other) == Extracted(existing, other)
  {
    hide Single, SplitLines, NewlineText, RStrip, Join, StartsWith, HeaderPrefix, NoHeader, Section, Strip, LStrip;
    var lines := SplitLines(existing);
    SectionStarts(section, version);
    OnlyItsVersion(section, version, other);
    if Strip(existing) == "" {
      BlankHasNoHeader(existing);
      NoHeaderNoVersion(lines, other);
      SectionSkips(lines, [], other);
      SectionSkips(SplitLines(section), [], other);
      assert lines + [] == lines && SplitLines(section) + [] == SplitLines(section);
    } else {
      var body, rest := RStrip(section), Rest(existing);
      UpdatedLines(existing, version, section);
      LeadLines(existing);
      NoHeaderNoVersion(Lead(existing), other);
      var tail := if rest == [] then [] else [""] + rest;
      SectionSkips(Lead(existing), SplitLines(body) + tail, other);
      SectionSkips(SplitLines(body), tail, other);
      BlankLine();
      NoHeaderNoVersion([""], other);
      SectionSkips([""], rest, other);
      BeforeFirstHeader(lines, other);
      hide Lead, Rest, Updated;
    }
  }

  lemma {:induction false} BeforeFirstHeader(lines: seq<string>, version: string)
    ensures Section(lines[IndexOf(lines, "## ")..], version) == Section(lines, version)
  {
    hide StartsWith, HeaderPrefix, Section;
    var k := IndexOf(lines, "## ");
    NoHeaderNoVersion(lines[..k], version);
    SectionSkips(lines[..k], lines[k..], version);
    assert lines[..k] + lines[k..] == lines;
  }

  lemma {:induction false} OnlyItsVersion(section: string, version: string, other: string)
    requires IsReleaseSection(section, version)
    requires SplitLines(section) != [] && !StartsWith(SplitLines(section)[0], HeaderPrefix(other))
    ensures NoVersion(SplitLines(section), other) && NoVersion(SplitLines(RStrip(section)), other)
  {
    hide Single, SplitLines, NewlineText, StartsWith, HeaderPrefix;
    var lines, body := SplitLines(section), SplitLines(RStrip(section));
    NoHeaderNoVersion(lines[1..], other);
    forall i | 0 <= i < |lines| ensures !StartsWith(lines[i], HeaderPrefix(other)) {
      if i > 0 { assert lines[i] == lines[1..][i - 1]; }
    }
    RStripIsPrefix(section);
    LinesOfPrefix(RStrip(section), section);
    forall i | 0 <= i < |body| ensures !StartsWith(body[i], HeaderPrefix(other)) {
      PrefixStarts(body[i], lines[i], HeaderPrefix(other));
    }
  }

  lemma {:induction false} CharsOfLines(lines: seq<string>, i: nat, k: nat)
    requires i < |lines| && k < |lines[i]|
    ensures lines[i][k] in Unlines(lines)
  {
    if i > 0 { CharsOfLines(lines[1..], i - 1, k); }
  }

  lemma {:induction false} BlankHasNoHeader(text: string)
    requires NewlineText(text) && Strip(text) == ""
    ensures NoHeader(SplitLines(text))
  {
    hide SplitLines, NewlineText, Single, Strip;
    var lines := SplitLines(text);
    UnlinesOfSplit(text);
    StripSpaces(text);
    forall i | 0 <= i < |lines| ensures !StartsWith(lines[i], "## ") {
      if StartsWith(lines[i], "## ") {
        assert lines[i][0] == lines[i][..3][0] == '#';
        CharsOfLines(lines, i, 0);
      }
    }
  }

  /** A header tells its version when versions have no spaces. */
  lemma {:induction false} HeaderTellsVersion(line: string, version: string, other: string)
    requires ' ' !in version && ' ' !in other
    requires StartsWith(line, HeaderPrefix(version)) && StartsWith(line, HeaderPrefix(other))
    ensures version == other
  {
    var a, b := HeaderPrefix(version), HeaderPrefix(other);
    assert forall i :: 0 <= i < |a| ==> a[i] == line[..|a|][i] == line[i];
    assert forall i :: 0 <= i < |b| ==> b[i] == line[..|b|][i] == line[i];
    assert a[3 + |version|] == ' ' && b[3 + |other|] == ' ';
    assert forall i :: 0 <= i < |version| ==> version[i] == a[3 + i] == line[3 + i];
    assert forall i :: 0 <= i < |other| ==> other[i] == b[3 + i] == line[3 + i];
  }

  /** The update is refused exactly when the version can already be extracted. */
  lemma {:induction false} RefusedIffPresent(existing: string, version: string, section: string)
    requires NewlineText(existing) && Single(version)
    ensures Updated(existing, version, section).None? <==> Extracted(existing, version).Some?
  {
    hide Single, SplitLines, NewlineText, StartsWith, Strip, Join, RStrip, LStrip, NonEmpty, MatchesAtLineStart, IndexOf;
    NoSection(SplitLines(existing), version);
    assert Section(SplitLines(existing), version).None? <==> !HasLine(SplitLines(existing), HeaderPrefix(version));
    PrefixIsSingle(version);
    MatchIsALine(existing, HeaderPrefix(version));
    hide HeaderPrefix;
  }

  lemma {:induction false} PrefixIsSingle(version: string)
    requires Single(version)
    ensures Single(HeaderPrefix(version)) && HeaderPrefix(version) != ""
  {
    var p := HeaderPrefix(version);
    assert forall i :: 0 <= i < |p| ==> p[i] == if i < 3 then "## "[i] else if i < 3 + |version| then version[i - 3] else " - "[i - 3 - |version|];
  }

  ghost predicate HasLine(lines: seq<string>, prefix: string) {
    exists i :: 0 <= i < |lines| && StartsWith(lines[i], prefix)
  }

  lemma {:induction false} NoLine(prefix: string)
    ensures !HasLine([], prefix)
  {
  }

  lemma {:induction false} HasLineSplits(line: string, lines: seq<string>, prefix: string)
    ensures HasLine([line] + lines, prefix) <==> StartsWith(line, prefix) || HasLine(lines, prefix)
    ensures HasLine([line], prefix) <==> StartsWith(line, prefix)
  {
    hide StartsWith;
    var all := [line] + lines;
    assert all[0] == line && [line][0] == line && forall k :: 0 <= k < |lines| ==> lines[k] == all[k + 1];
  }

  lemma {:induction false} MatchIsALine(text: string, prefix: string)
    requires NewlineText(text) && Single(prefix) && prefix != ""
    ensures MatchesAtLineStart(text, prefix) <==> HasLine(SplitLines(text), prefix)
    decreases |text|
  {
    hide Single, SplitLines, NewlineText, IsBreak, FirstBreak, MatchesAtLineStart, StartsWith, HasLine;
    SplitEmpty();
    NoLine(prefix);
    var i := FirstBreak(text);
    NoBreak(text);
    if text == "" {
      NoMatchInEmpty(prefix);
    } else if i == |text| {
      SplitSingle(text) by { assert text[..i] == text; }
      MatchInOneLine(text, prefix);
      HasLineSplits(text, [], prefix);
    } else {
      var line, rest := text[..i], text[i + 1..];
      BreakIsNewline(text);
      assert text == line + "\n" + rest;
      SplitFirst(line, rest);
      MatchIsALine(rest, prefix);
      MatchSplits(line, rest, prefix);
      HasLineSplits(line, SplitLines(rest), prefix);
    }
  }

  lemma {:induction false} NoMatchInEmpty(prefix: string)
    requires prefix != ""
    ensures !MatchesAtLineStart("", prefix)
  {
  }

  lemma {:induction false} MatchInOneLine(text: string, prefix: string)
    requires Single(text) && text != ""
    ensures MatchesAtLineStart(text, prefix) <==> StartsWith(text, prefix)
  {
  }

  lemma {:induction false} MatchSplits(line: string, rest: string, prefix: string)
    requires Single(line) && Single(prefix)
    ensures MatchesAtLineStart(line + "\n" + rest, prefix) <==> StartsWith(line, prefix) || MatchesAtLineStart(rest, prefix)
  {
    var text, n := line + "\n" + rest, |line|;
    assert forall k :: 0 <= k < n ==> text[k] == line[k];
    assert text[n] == '\n' && text[n + 1..] == rest;
    assert StartsWith(text, prefix) <==> StartsWith(line, prefix) by {
      if StartsWith(text, prefix) {
        assert forall k :: 0 <= k < |prefix| ==> prefix[k] == text[..|prefix|][k] == text[k];
        assert line[..|prefix|] == text[..|prefix|];
      }
      if StartsWith(line, prefix) { assert text[..|prefix|] == line[..|prefix|]; }
    }
    forall i | 0 <= i < |rest| ensures text[n + 1 + i] == rest[i] && text[n + 1 + i + 1..] == rest[i + 1..] {
    }
    if i :| 0 <= i < |text| && text[i] == '\n' && StartsWith(text[i + 1..], prefix) {
      if i > n { assert rest[i - n - 1] == '\n' && text[i + 1..] == rest[i - n..]; }
    }
    if i :| 0 <= i < |rest| && rest[i] == '\n' && StartsWith(rest[i + 1..], prefix) {
      assert text[n + 1 + i] == '\n' && text[n + 1 + i + 1..] == rest[i + 1..];
    }
  }
}
