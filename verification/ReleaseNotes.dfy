/** Release notes in groups: printing them as a changelog section, and reading them back. */
module ReleaseNotes {
  import opened Options
  import opened Text
  import opened Changelog
  import opened ChangelogTheorems

  datatype Group = Features | Fixes | Documentation | Other

  datatype Notes = Notes(features: seq<string>, fixes: seq<string>, documentation: seq<string>, other: seq<string>)

  const ORDERED := [Features, Fixes, Documentation, Other]

  function Title(g: Group): string {
    match g
    case Features => "Features"
    case Fixes => "Fixes"
    case Documentation => "Documentation"
    case Other => "Other"
  }

  function Get(n: Notes, g: Group): seq<string> {
    match g
    case Features => n.features
    case Fixes => n.fixes
    case Documentation => n.documentation
    case Other => n.other
  }

  function Add(n: Notes, g: Group, notes: seq<string>): Notes {
    match g
    case Features => n.(features := n.features + notes)
    case Fixes => n.(fixes := n.fixes + notes)
    case Documentation => n.(documentation := n.documentation + notes)
    case Other => n.(other := n.other + notes)
  }

  // Printing

  function Bullets(notes: seq<string>): (lines: seq<string>)
    ensures |lines| == |notes| && forall i :: 0 <= i < |notes| ==> lines[i] == "- " + notes[i]
  {
    if notes == [] then [] else Bullets(notes[..|notes| - 1]) + ["- " + notes[|notes| - 1]]
  }

  function GroupLines(g: Group, notes: seq<string>): seq<string> {
    if notes == [] then [] else ["### " + Title(g)] + Bullets(notes) + [""]
  }

  /** The first `k` groups, in the fixed order. */
  function GroupsLines(n: Notes, k: nat): seq<string>
    requires k <= |ORDERED|
  {
    if k == 0 then [] else GroupsLines(n, k - 1) + GroupLines(ORDERED[k - 1], Get(n, ORDERED[k - 1]))
  }

  function Header(version: string, date: string): string {
    HeaderPrefix(version) + date
  }

  function Rendered(version: string, date: string, n: Notes): string {
    RStrip(Join([Header(version, date), ""] + GroupsLines(n, |ORDERED|), "\n")) + "\n"
  }

  lemma {:induction false} NoGroups(n: Notes)
    ensures GroupsLines(n, 0) == []
  {
  }

  lemma {:induction false} OneMoreGroup(parts: seq<string>, n: Notes, i: nat)
    requires i < |ORDERED|
    ensures var g := ORDERED[i];
      parts + GroupsLines(n, i + 1)
      == if Get(n, g) == [] then parts + GroupsLines(n, i)
         else parts + GroupsLines(n, i) + ["### " + Title(g)] + Bullets(Get(n, g)) + [""]
  {
    hide Bullets, Title, Get;
  }

  method RenderReleaseSection(version: string, date: string, groupedNotes: Notes) returns (text: string)
    ensures text == Rendered(version, date, groupedNotes)
  {
    hide RStrip, Join, Bullets, Header, GroupsLines, Title, Get;
    NoGroups(groupedNotes);
    var parts := [Header(version, date), ""];
    for i := 0 to |ORDERED|
      invariant parts == [Header(version, date), ""] + GroupsLines(groupedNotes, i)
    {
      var notes := Get(groupedNotes, ORDERED[i]);
      OneMoreGroup([Header(version, date), ""], groupedNotes, i);
      if notes == [] { continue; }
      parts := parts + ["### " + Title(ORDERED[i])];
      parts := parts + Bullets(notes);
      parts := parts + [""];
    }
    text := RStrip(Join(parts, "\n")) + "\n";
  }

  // Reading back

  /** Lower case as far as the known headings need it. */
  function Lower(s: string): (r: string)
    ensures |r| == |s|
  {
    seq(|s|, i requires 0 <= i < |s| => if 'A' <= s[i] <= 'Z' then s[i] - 'A' + 'a' else s[i])
  }

  function GroupOf(heading: string): Group {
    if heading == "features" then Features
    else if heading == "fixes" then Fixes
    else if heading == "documentation" || heading == "docs" then Documentation
    else Other
  }

  datatype Reading = Reading(current: Option<Group>, notes: Notes)

  const Nothing := Reading(None, Notes([], [], [], []))

  function TakeLine(r: Reading, raw: string): Reading {
    var line := Strip(raw);
    if StartsWith(line, "### ") then r.(current := Some(GroupOf(Lower(Strip(line[4..])))))
    else if StartsWith(line, "- ") then
      r.(notes := Add(r.notes, if r.current.Some? then r.current.value else Other, [Strip(line[2..])]))
    else r
  }

  function TakeLines(r: Reading, lines: seq<string>): Reading {
    if lines == [] then r else TakeLine(TakeLines(r, lines[..|lines| - 1]), lines[|lines| - 1])
  }

  function Normalized(text: string): Notes {
    TakeLines(Nothing, SplitLines(text)).notes
  }

  method NormalizeCliffOutput(text: string) returns (grouped: Notes)
    ensures grouped == Normalized(text)
  {
    hide SplitLines, Strip, GroupOf;
    var currentSection: Option<Group> := None;
    grouped := Notes([], [], [], []);
    var lines := SplitLines(text);
    for i := 0 to |lines|
      invariant Reading(currentSection, grouped) == TakeLines(Nothing, lines[..i])
    {
      assert lines[..i + 1][..i] == lines[..i];
      var line := Strip(lines[i]);
      if StartsWith(line, "### ") {
        currentSection := Some(GroupOf(Lower(Strip(line[4..]))));
        continue;
      }
      if StartsWith(line, "- ") {
        var target := if currentSection.Some? then currentSection.value else Other;
        grouped := Add(grouped, target, [Strip(line[2..])]);
      }
    }
    assert lines[..|lines|] == lines;
  }

  // Where a note is filed, said line by line

  /** The lower-case letter or the same letter in upper case; other characters only themselves. */
  predicate SameLetter(c: char, lower: char) {
    c == lower || ('a' <= lower <= 'z' && c as int == lower as int - 32)
  }

  predicate SameWord(s: string, lower: string) {
    |s| == |lower| && forall i :: 0 <= i < |s| ==> SameLetter(s[i], lower[i])
  }

  predicate IsHeading(line: string) {
    |Strip(line)| >= 4 && Strip(line)[..4] == "### "
  }

  predicate IsBullet(line: string) {
    |Strip(line)| >= 2 && Strip(line)[..2] == "- "
  }

  /** The text of the last heading among the lines. */
  function HeadingAbove(lines: seq<string>): Option<string> {
    if lines == [] then None
    else
      var last := lines[|lines| - 1];
      if IsHeading(last) then Some(Strip(Strip(last)[4..])) else HeadingAbove(lines[..|lines| - 1])
  }

  /** The group for notes under this heading: one of the five known words in any letter case, or "Other". */
  predicate BelongsUnder(g: Group, heading: Option<string>) {
    match g
    case Features => heading.Some? && SameWord(heading.value, "features")
    case Fixes => heading.Some? && SameWord(heading.value, "fixes")
    case Documentation => heading.Some? && (SameWord(heading.value, "documentation") || SameWord(heading.value, "docs"))
    case Other =>
      heading.None?
      || !(SameWord(heading.value, "features") || SameWord(heading.value, "fixes")
           || SameWord(heading.value, "documentation") || SameWord(heading.value, "docs"))
  }

  /** The bullets that stand under a heading of the group, in order. */
  function NotesUnder(g: Group, lines: seq<string>): seq<string> {
    if lines == [] then []
    else
      var before, last := lines[..|lines| - 1], lines[|lines| - 1];
      NotesUnder(g, before) + (if IsBullet(last) && BelongsUnder(g, HeadingAbove(before)) then [Strip(Strip(last)[2..])] else [])
  }

  lemma {:induction false} LowerWord(s: string, lower: string)
    requires forall i :: 0 <= i < |lower| ==> 'a' <= lower[i] <= 'z'
    ensures Lower(s) == lower <==> SameWord(s, lower)
  {
    if |s| == |lower| {
      forall i | 0 <= i < |s| ensures Lower(s)[i] == lower[i] <==> SameLetter(s[i], lower[i]) {
        var c := s[i];
        assert 'A' <= c <= 'Z' ==> (c - 'A' + 'a') as int == c as int + 32;
      }
    }
  }

  lemma {:induction false} GroupOfIs(g: Group, heading: string)
    ensures GroupOf(Lower(heading)) == g <==> BelongsUnder(g, Some(heading))
  {
    hide Lower, SameWord;
    LowerWord(heading, "features");
    LowerWord(heading, "fixes");
    LowerWord(heading, "documentation");
    LowerWord(heading, "docs");
  }

  /** What has been read so far: the heading above, and the notes under each group's headings. */
  ghost predicate ReadSoFar(r: Reading, lines: seq<string>) {
    && (r.current == match HeadingAbove(lines) case None => None case Some(h) => Some(GroupOf(Lower(h))))
    && (forall g: Group :: Get(r.notes, g) == NotesUnder(g, lines))
  }

  lemma {:induction false} AddGets(n: Notes, target: Group, note: string)
    ensures forall g :: Get(Add(n, target, [note]), g) == if g == target then Get(n, g) + [note] else Get(n, g)
  {
  }

  lemma {:induction false} LineIsRead(r: Reading, lines: seq<string>, line: string)
    requires ReadSoFar(r, lines)
    ensures ReadSoFar(TakeLine(r, line), lines + [line])
  {
    hide Strip, Lower, GroupOf, SameWord, Get, Add, BelongsUnder;
    assert (lines + [line])[..|lines|] == lines;
    HeadingIsNoBullet(line);
    if IsBullet(line) {
      var target := if r.current.Some? then r.current.value else Other;
      AddGets(r.notes, target, Strip(Strip(line)[2..]));
      forall g ensures BelongsUnder(g, HeadingAbove(lines)) <==> g == target {
        if HeadingAbove(lines).Some? { GroupOfIs(g, HeadingAbove(lines).value); } else { NoHeadingIsOther(g); }
      }
    }
  }

  lemma {:induction false} HeadingIsNoBullet(line: string)
    ensures !(IsHeading(line) && IsBullet(line))
    ensures StartsWith(Strip(line), "### ") <==> IsHeading(line)
    ensures StartsWith(Strip(line), "- ") <==> IsBullet(line)
  {
    hide Strip;
    if IsHeading(line) { assert Strip(line)[..2][0] == Strip(line)[..4][0] == '#'; }
  }

  lemma {:induction false} NoHeadingIsOther(g: Group)
    ensures BelongsUnder(g, None) <==> g == Other
  {
  }

  lemma {:induction false} LinesAreRead(lines: seq<string>)
    ensures ReadSoFar(TakeLines(Nothing, lines), lines)
  {
    hide TakeLine;
    if lines != [] {
      LinesAreRead(lines[..|lines| - 1]);
      LineIsRead(TakeLines(Nothing, lines[..|lines| - 1]), lines[..|lines| - 1], lines[|lines| - 1]);
      assert lines[..|lines| - 1] + [lines[|lines| - 1]] == lines;
    }
  }

  /**
   * Every bullet of any text is filed under the heading above it: "features", "fixes", and
   * "documentation" or "docs" in any letter case give their group, and any other heading, or none,
   * gives "Other"; each group keeps the order of the text, and nothing else is filed.
   */
  lemma {:induction false} NotesAreFiledUnderTheirHeading(text: string, g: Group)
    ensures Get(Normalized(text), g) == NotesUnder(g, SplitLines(text))
  {
    hide TakeLines, NotesUnder, SplitLines, Get;
    LinesAreRead(SplitLines(text));
  }

  // Which headings are printed, and where

  function HeadingLines(lines: seq<string>): seq<string> {
    if lines == [] then []
    else
      var last := lines[|lines| - 1];
      HeadingLines(lines[..|lines| - 1]) + (if |last| >= 4 && last[..4] == "### " then [last] else [])
  }

  lemma {:induction false} HeadingLinesConcat(a: seq<string>, b: seq<string>)
    ensures HeadingLines(a + b) == HeadingLines(a) + HeadingLines(b)
  {
    if b == [] {
      assert a + b == a;
    } else {
      assert (a + b)[..|a + b| - 1] == a + b[..|b| - 1];
      HeadingLinesConcat(a, b[..|b| - 1]);
    }
  }

  lemma {:induction false} BulletsHaveNoHeading(notes: seq<string>)
    ensures HeadingLines(Bullets(notes)) == []
  {
    if notes != [] {
      BulletsHaveNoHeading(notes[..|notes| - 1]);
      var bullets := Bullets(notes);
      assert bullets[..|bullets| - 1] == Bullets(notes[..|notes| - 1]);
      assert bullets[|bullets| - 1] == "- " + notes[|notes| - 1];
      assert |bullets[|bullets| - 1]| >= 4 ==> bullets[|bullets| - 1][..4][0] == '-';
    }
  }

  lemma {:induction false} OneLine(line: string)
    ensures HeadingLines([line]) == if |line| >= 4 && line[..4] == "### " then [line] else []
  {
    assert [line][..0] == [];
  }

  lemma {:induction false} GroupHeading(g: Group, notes: seq<string>)
    ensures HeadingLines(GroupLines(g, notes)) == if notes == [] then [] else ["### " + Title(g)]
  {
    hide HeadingLines, Bullets, Title;
    var heading := "### " + Title(g);
    assert heading[..4] == "### ";
    assert notes != [] ==> GroupLines(g, notes) == [heading] + Bullets(notes) + [""];
    OneLine(heading);
    OneLine("");
    BulletsHaveNoHeading(notes);
    HeadingLinesConcat([heading], Bullets(notes));
    HeadingLinesConcat([heading] + Bullets(notes), [""]);
    NoHeadingLines();
  }

  lemma {:induction false} NoHeadingLines()
    ensures HeadingLines([]) == []
  {
  }

  /** The headings of the groups that have notes, in their fixed order. */
  function HeadingsOf(n: Notes): seq<string> {
    (if n.features != [] then ["### Features"] else []) + (if n.fixes != [] then ["### Fixes"] else [])
    + (if n.documentation != [] then ["### Documentation"] else []) + (if n.other != [] then ["### Other"] else [])
  }

  lemma {:induction false} OneMoreHeading(n: Notes, k: nat)
    requires k < |ORDERED|
    ensures HeadingLines(GroupsLines(n, k + 1))
         == HeadingLines(GroupsLines(n, k)) + (if Get(n, ORDERED[k]) == [] then [] else ["### " + Title(ORDERED[k])])
  {
    hide HeadingLines, GroupLines, Title, Get;
    GroupHeading(ORDERED[k], Get(n, ORDERED[k]));
    HeadingLinesConcat(GroupsLines(n, k), GroupLines(ORDERED[k], Get(n, ORDERED[k])));
  }

  lemma {:induction false} HeadingsInOrder(n: Notes)
    ensures HeadingLines(GroupsLines(n, |ORDERED|)) == HeadingsOf(n)
  {
    hide HeadingLines, GroupsLines;
    NoHeadingLines();
    NoGroups(n);
    assert "### " + Title(Features) == "### Features" && "### " + Title(Fixes) == "### Fixes";
    assert "### " + Title(Documentation) == "### Documentation" && "### " + Title(Other) == "### Other";
    OneMoreHeading(n, 0);
    OneMoreHeading(n, 1);
    OneMoreHeading(n, 2);
    OneMoreHeading(n, 3);
  }

  // Reading undoes printing

  /** One line of text with no blanks around it. */
  ghost predicate IsNote(note: string) {
    note != "" && Strip(note) == note && Single(note)
  }

  ghost predicate AreNotes(n: Notes) {
    forall g: Group, i :: 0 <= i < |Get(n, g)| ==> IsNote(Get(n, g)[i])
  }

  lemma {:induction false} TakeLinesConcat(r: Reading, a: seq<string>, b: seq<string>)
    ensures TakeLines(r, a + b) == TakeLines(TakeLines(r, a), b)
  {
    hide TakeLine;
    if b == [] {
      assert a + b == a;
    } else {
      assert (a + b)[..|a + b| - 1] == a + b[..|b| - 1];
      TakeLinesConcat(r, a, b[..|b| - 1]);
    }
  }

  lemma {:induction false} TakeOne(r: Reading, line: string)
    ensures TakeLines(r, [line]) == TakeLine(r, line) && TakeLines(r, []) == r
  {
    hide TakeLine;
    assert [line][..0] == [];
  }

  lemma {:induction false} Stripped(s: string)
    requires s != "" && !IsSpace(s[0]) && !IsSpace(s[|s| - 1])
    ensures Strip(s) == s
  {
  }

  lemma {:induction false} EndsOfNote(note: string)
    requires note != "" && Strip(note) == note
    ensures !IsSpace(note[0]) && !IsSpace(note[|note| - 1])
  {
    LStripEmpty(note);
    RStripIsPrefix(LStrip(note));
    LStripShortens(note);
  }

  lemma {:induction false} LStripShortens(s: string)
    ensures |LStrip(s)| <= |s| && (|LStrip(s)| == |s| ==> LStrip(s) == s)
  {
    if s != "" && IsSpace(s[0]) { LStripShortens(s[1..]); }
  }

  lemma {:induction false} TakeBullet(r: Reading, note: string)
    requires IsNote(note)
    ensures TakeLine(r, "- " + note) == r.(notes := Add(r.notes, if r.current.Some? then r.current.value else Other, [note]))
  {
    var line := "- " + note;
    EndsOfNote(note);
    assert line[|line| - 1] == note[|note| - 1];
    Stripped(line);
    hide Strip, IsSpace;
    assert line[2..] == note && line[..2] == "- ";
    assert !StartsWith(line, "### ") by {
      if |line| >= 4 { assert line[..4][0] == '-'; }
    }
  }

  lemma {:induction false} Headings()
    ensures Lower("Features") == "features" && Lower("Fixes") == "fixes"
    ensures Lower("Documentation") == "documentation" && Lower("Other") == "other"
  {
  }

  lemma {:induction false} TakeHeading(r: Reading, g: Group)
    ensures TakeLine(r, "### " + Title(g)) == r.(current := Some(g))
  {
    var line, title := "### " + Title(g), Title(g);
    assert line[|line| - 1] == title[|title| - 1];
    Stripped(line);
    Stripped(title);
    hide Strip, IsSpace;
    assert line[..4] == "### " && line[4..] == title;
    Headings();
  }

  lemma {:induction false} TakeBlank(r: Reading)
    ensures TakeLine(r, "") == r
  {
  }

  lemma {:induction false} AddTwice(n: Notes, g: Group, a: seq<string>, b: seq<string>)
    ensures Add(Add(n, g, a), g, b) == Add(n, g, a + b) && Add(n, g, []) == n
  {
    var s := Get(n, g);
    assert s + a + b == s + (a + b) && s + [] == s;
  }

  lemma {:induction false} TakeBullets(r: Reading, g: Group, notes: seq<string>)
    requires r.current == Some(g) && forall i :: 0 <= i < |notes| ==> IsNote(notes[i])
    ensures TakeLines(r, Bullets(notes)) == r.(notes := Add(r.notes, g, notes))
  {
    hide TakeLine, Add, IsNote;
    if notes == [] {
      AddTwice(r.notes, g, [], []);
    } else {
      var init, last := notes[..|notes| - 1], notes[|notes| - 1];
      TakeBullets(r, g, init);
      var bullets := Bullets(notes);
      assert bullets[..|bullets| - 1] == Bullets(init) && bullets[|bullets| - 1] == "- " + last;
      TakeBullet(TakeLines(r, Bullets(init)), last);
      AddTwice(r.notes, g, init, [last]);
      assert init + [last] == notes;
    }
  }

  lemma {:induction false} TakeGroup(r: Reading, g: Group, notes: seq<string>)
    requires forall i :: 0 <= i < |notes| ==> IsNote(notes[i])
    ensures TakeLines(r, GroupLines(g, notes)).notes == Add(r.notes, g, notes)
  {
    hide TakeLine, TakeLines, Add, IsNote, Title, Bullets;
    TakeOne(r, "### " + Title(g));
    if notes == [] {
      AddTwice(r.notes, g, [], []);
    } else {
      var opening := r.(current := Some(g));
      TakeHeading(r, g);
      TakeBullets(opening, g, notes);
      TakeLinesConcat(r, ["### " + Title(g)], Bullets(notes));
      TakeLinesConcat(r, ["### " + Title(g)] + Bullets(notes), [""]);
      TakeBlank(TakeLines(opening, Bullets(notes)));
      TakeOne(TakeLines(opening, Bullets(notes)), "");
    }
  }

  /** The notes of the first `k` groups. */
  ghost function FirstGroups(n: Notes, k: nat): Notes
    requires k <= |ORDERED|
  {
    if k == 0 then Notes([], [], [], []) else Add(FirstGroups(n, k - 1), ORDERED[k - 1], Get(n, ORDERED[k - 1]))
  }

  lemma {:induction false} TakeGroups(r: Reading, n: Notes, k: nat)
    requires AreNotes(n) && k <= |ORDERED| && r.notes == Notes([], [], [], [])
    ensures TakeLines(r, GroupsLines(n, k)).notes == FirstGroups(n, k)
  {
    hide TakeLine, TakeLines, Add, IsNote, GroupLines;
    if k == 0 {
      TakeOne(r, "");
    } else {
      var g := ORDERED[k - 1];
      TakeGroups(r, n, k - 1);
      TakeLinesConcat(r, GroupsLines(n, k - 1), GroupLines(g, Get(n, g)));
      TakeGroup(TakeLines(r, GroupsLines(n, k - 1)), g, Get(n, g));
    }
  }

  lemma {:induction false} AllGroups(n: Notes)
    ensures FirstGroups(n, |ORDERED|) == n
  {
    assert FirstGroups(n, 1) == Notes(n.features, [], [], []);
    assert FirstGroups(n, 2) == Notes(n.features, n.fixes, [], []);
    assert FirstGroups(n, 3) == Notes(n.features, n.fixes, n.documentation, []);
  }

  // The lines of a printed section

  /** Lines that end with a note and a blank line after it. */
  ghost predicate EndsWithNote(lines: seq<string>) {
    |lines| >= 2 && lines[|lines| - 1] == "" && lines[|lines| - 2] != "" && !IsSpace(lines[|lines| - 2][|lines[|lines| - 2]| - 1])
  }

  ghost predicate NoteLines(lines: seq<string>) {
    AllSingle(lines) && NoHeader(lines)
  }

  lemma {:induction false} NoteLinesConcat(a: seq<string>, b: seq<string>)
    requires NoteLines(a) && NoteLines(b)
    ensures NoteLines(a + b)
  {
    hide Single, StartsWith;
  }

  lemma {:induction false} OneNoteLine(g: Group, note: string)
    requires IsNote(note)
    ensures NoteLines(["- " + note]) && NoteLines(["### " + Title(g)]) && NoteLines([""]) && NoteLines([])
  {
    var line, heading := "- " + note, "### " + Title(g);
    assert |line| >= 3 ==> line[..3][0] == '-';
    assert heading[..3][2] == '#';
    assert forall i :: 0 <= i < |line| ==> line[i] == if i < 2 then "- "[i] else note[i - 2];
    assert Single(line) && Single(heading);
  }

  lemma {:induction false} NoNoteLine(g: Group)
    ensures NoteLines(["### " + Title(g)]) && NoteLines([""]) && NoteLines([])
  {
    Stripped("x");
    OneNoteLine(g, "x");
  }

  lemma {:induction false} BulletLines(notes: seq<string>)
    requires forall i :: 0 <= i < |notes| ==> IsNote(notes[i])
    ensures NoteLines(Bullets(notes))
  {
    hide IsNote, NoteLines;
    NoNoteLine(Other);
    if notes != [] {
      BulletLines(notes[..|notes| - 1]);
      OneNoteLine(Other, notes[|notes| - 1]);
      NoteLinesConcat(Bullets(notes[..|notes| - 1]), ["- " + notes[|notes| - 1]]);
    }
  }

  lemma {:induction false} LinesOfGroup(g: Group, notes: seq<string>)
    requires forall i :: 0 <= i < |notes| ==> IsNote(notes[i])
    ensures NoteLines(GroupLines(g, notes)) && (if notes == [] then GroupLines(g, notes) == [] else EndsWithNote(GroupLines(g, notes)))
  {
    hide IsNote, NoteLines, IsSpace, Title;
    NoNoteLine(g);
    if notes != [] {
      var last := notes[|notes| - 1];
      BulletLines(notes);
      NoteLinesConcat(["### " + Title(g)], Bullets(notes));
      NoteLinesConcat(["### " + Title(g)] + Bullets(notes), [""]);
      LastOfNote(last);
      var lines := GroupLines(g, notes);
      assert lines[|lines| - 2] == "- " + last;
      hide Bullets;
    }
  }

  lemma {:induction false} LastOfNote(note: string)
    requires IsNote(note)
    ensures !IsSpace(("- " + note)[|"- " + note| - 1])
  {
    EndsOfNote(note);
    assert ("- " + note)[|note| + 1] == note[|note| - 1];
  }

  lemma {:induction false} LinesOfGroups(n: Notes, k: nat)
    requires AreNotes(n) && k <= |ORDERED|
    ensures NoteLines(GroupsLines(n, k)) && (GroupsLines(n, k) != [] ==> EndsWithNote(GroupsLines(n, k)))
    ensures GroupsLines(n, k) == [] ==> FirstGroups(n, k) == Notes([], [], [], [])
  {
    hide IsNote, NoteLines, EndsWithNote, GroupLines, Get, Add;
    NoNoteLine(Other);
    if k > 0 {
      var g := ORDERED[k - 1];
      LinesOfGroups(n, k - 1);
      LinesOfGroup(g, Get(n, g));
      NoteLinesConcat(GroupsLines(n, k - 1), GroupLines(g, Get(n, g)));
      EndsConcat(GroupsLines(n, k - 1), GroupLines(g, Get(n, g)));
      AddTwice(FirstGroups(n, k - 1), g, [], []);
    }
  }

  lemma {:induction false} EndsConcat(a: seq<string>, b: seq<string>)
    ensures EndsWithNote(b) ==> EndsWithNote(a + b) && a + b != []
    ensures b == [] ==> a + b == a
  {
    hide IsSpace;
  }

  lemma {:induction false} SingleConcat(a: string, b: string)
    requires Single(a) && Single(b)
    ensures Single(a + b)
  {
  }

  /** All the lines before stripping; the header is followed by a blank line. */
  ghost function AllLines(version: string, date: string, n: Notes): seq<string> {
    [Header(version, date), ""] + GroupsLines(n, |ORDERED|)
  }

  lemma {:induction false} AllLinesAreSingle(version: string, date: string, n: Notes)
    requires Single(version) && Single(date) && AreNotes(n)
    ensures AllSingle(AllLines(version, date, n)) && NoHeader(AllLines(version, date, n)[1..])
  {
    hide Single, StartsWith, IsSpace, AreNotes, HeaderPrefix, GroupsLines;
    PrefixIsSingle(version);
    SingleConcat(HeaderPrefix(version), date);
    LinesOfGroups(n, |ORDERED|);
    NoNoteLine(Other);
    NoteLinesConcat([""], GroupsLines(n, |ORDERED|));
    var all := AllLines(version, date, n);
    assert all[1..] == [""] + GroupsLines(n, |ORDERED|);
    AllSingleSplits(all);
  }

  lemma {:induction false} LastOfJoin(lines: seq<string>)
    requires lines != [] && lines[|lines| - 1] != ""
    ensures var s, last := Join(lines, "\n"), lines[|lines| - 1];
      s != "" && s[|s| - 1] == last[|last| - 1]
  {
    if |lines| > 1 { LastOfJoin(lines[1..]); }
  }

  /** Stripping removes exactly the blank line at the end. */
  lemma {:induction false} StripsOneBlankLine(lines: seq<string>)
    requires AllSingle(lines) && EndsWithNote(lines)
    ensures SplitLines(RStrip(Join(lines, "\n")) + "\n") == lines[..|lines| - 1]
    ensures RStrip(Join(lines, "\n")) + "\n" == Unlines(lines[..|lines| - 1])
  {
    hide Single, IsSpace, Join, SplitLines, RStrip;
    var init := lines[..|lines| - 1];
    assert lines == init + [""];
    JoinUnlines(lines);
    JoinUnlines(init);
    UnlinesConcat(init, [""]);
    BlankLine();
    var text := Join(init, "\n");
    assert Join(lines, "\n") + "\n" == text + "\n" + "\n";
    assert Join(lines, "\n") == (Join(lines, "\n") + "\n")[..|text| + 1] == text + "\n";
    RStripNewline(text);
    LastOfJoin(init);
    NothingToRStrip(text);
    SlicesAreSingle(lines, |lines| - 1);
    SplitUnlines(init);
  }

  lemma {:induction false} NothingToRStrip(s: string)
    requires s != "" && !IsSpace(s[|s| - 1])
    ensures RStrip(s) == s
  {
  }

  lemma {:induction false} HeaderIsIgnored(r: Reading, version: string, date: string, p: string)
    requires p <= Header(version, date)
    ensures TakeLine(r, p) == r
  {
    var header := Header(version, date);
    assert header[..3] == "## " && header[0] == '#' && header[2] == ' ';
    LStripOfHash(p);
    RStripIsPrefix(p);
    var q := Strip(p);
    assert forall i :: 0 <= i < |q| ==> q[i] == header[i];
    assert |q| >= 4 ==> q[..4][2] == ' ';
    assert |q| >= 2 ==> q[..2][0] == '#';
    hide Strip, HeaderPrefix;
  }

  lemma {:induction false} LStripOfHash(s: string)
    requires s != "" ==> s[0] == '#'
    ensures LStrip(s) == s
  {
  }

  /** Reading the lines of a section, header and all, gives the notes. */
  lemma {:induction false} ReadAllLines(version: string, date: string, n: Notes)
    requires AreNotes(n)
    ensures TakeLines(Nothing, AllLines(version, date, n)).notes == n
  {
    hide TakeLine, TakeLines, Header, AreNotes, GroupsLines, FirstGroups;
    var header := Header(version, date);
    HeaderIsIgnored(Nothing, version, date, header);
    TakeOne(Nothing, header);
    TakeBlank(Nothing);
    TakeOne(Nothing, "");
    assert [header, ""] == [header] + [""];
    TakeLinesConcat(Nothing, [header], [""]);
    TakeLinesConcat(Nothing, [header, ""], GroupsLines(n, |ORDERED|));
    TakeGroups(Nothing, n, |ORDERED|);
    AllGroups(n);
  }

  /** Reading undoes printing: every group gets its own notes back, in order. */
  lemma {:induction false} ReadingUndoesPrinting(version: string, date: string, n: Notes)
    requires Single(version) && Single(date) && AreNotes(n)
    ensures Normalized(Rendered(version, date, n)) == n
  {
    hide *;
    var all := AllLines(version, date, n);
    RenderedIsAllLines(version, date, n);
    if GroupsLines(n, |ORDERED|) == [] {
      OnlyHeader(version, date, n);
    } else {
      AllLinesAreSingle(version, date, n);
      ReadAllLines(version, date, n);
      AllEndWithNote(version, date, n);
      StripsOneBlankLine(all);
      ReadsInit(all);
      NormalizedIs(Rendered(version, date, n));
    }
  }

  lemma {:induction false} RenderedIsAllLines(version: string, date: string, n: Notes)
    ensures Rendered(version, date, n) == RStrip(Join(AllLines(version, date, n), "\n")) + "\n"
  {
    hide RStrip, Join, GroupsLines, Header;
  }

  lemma {:induction false} NormalizedIs(text: string)
    ensures Normalized(text) == TakeLines(Nothing, SplitLines(text)).notes
  {
    hide TakeLines, SplitLines;
  }

  lemma {:induction false} AllEndWithNote(version: string, date: string, n: Notes)
    requires AreNotes(n) && GroupsLines(n, |ORDERED|) != []
    ensures EndsWithNote(AllLines(version, date, n)) && |AllLines(version, date, n)| > 1
  {
    hide GroupsLines, IsSpace, Header, AreNotes;
    LinesOfGroups(n, |ORDERED|);
  }

  lemma {:induction false} ReadsInit(lines: seq<string>)
    requires EndsWithNote(lines)
    ensures TakeLines(Nothing, lines[..|lines| - 1]) == TakeLines(Nothing, lines)
  {
    hide TakeLine;
    TakeBlank(TakeLines(Nothing, lines[..|lines| - 1]));
  }

  lemma {:induction false} HeaderIsNoHeading(version: string, date: string, p: string)
    requires p <= Header(version, date)
    ensures HeadingLines([p]) == [] && HeadingLines([""]) == []
  {
    OneLine(p);
    OneLine("");
    assert |p| >= 4 ==> p[..4][2] == Header(version, date)[2] == ' ';
    hide HeadingLines;
  }

  lemma {:induction false} AllHeadings(version: string, date: string, n: Notes)
    ensures HeadingLines(AllLines(version, date, n)) == HeadingsOf(n)
  {
    hide HeadingLines, GroupsLines, Header, HeadingsOf;
    var header := Header(version, date);
    HeaderIsNoHeading(version, date, header);
    HeadingsInOrder(n);
    HeadingLinesConcat([header], [""]);
    assert [header, ""] == [header] + [""];
    HeadingLinesConcat([header, ""], GroupsLines(n, |ORDERED|));
  }

  /**
   * The lines of a printed section: its header first, and the headings of the groups that have notes
   * in the order features, fixes, documentation, other.
   */
  lemma {:induction false} PrintedInOrder(version: string, date: string, n: Notes)
    requires Single(version) && IsNote(date) && AreNotes(n)
    ensures var lines := SplitLines(Rendered(version, date, n));
      && lines != [] && lines[0] == "## " + version + " - " + date
      && HeadingLines(lines) == HeadingsOf(n)
  {
    hide *;
    var all, lines := AllLines(version, date, n), SplitLines(Rendered(version, date, n));
    DateIsSingle(date);
    AllHeadings(version, date, n);
    RenderedIsAllLines(version, date, n);
    StartOfAllLines(version, date, n);
    if GroupsLines(n, |ORDERED|) == [] {
      HeaderAloneIsALine(version, date, n);
      HeaderIsNoHeading(version, date, Header(version, date));
      HeadingsInOrder(n);
      NoHeadingLines();
    } else {
      AllLinesAreSingle(version, date, n);
      AllEndWithNote(version, date, n);
      StripsOneBlankLine(all);
      EndsBlank(all);
      HeadingLinesConcat(all[..|all| - 1], [""]);
      HeaderIsNoHeading(version, date, Header(version, date));
      assert all[..|all| - 1] + [""] == all;
    }
  }

  lemma {:induction false} StartOfAllLines(version: string, date: string, n: Notes)
    ensures AllLines(version, date, n)[0] == Header(version, date) == "## " + version + " - " + date
  {
    hide GroupsLines;
  }

  lemma {:induction false} EndsBlank(lines: seq<string>)
    requires EndsWithNote(lines)
    ensures |lines| >= 2 && lines[|lines| - 1] == ""
  {
    hide IsSpace;
  }

  lemma {:induction false} HeaderAloneIsALine(version: string, date: string, n: Notes)
    requires Single(version) && IsNote(date) && GroupsLines(n, |ORDERED|) == []
    ensures SplitLines(Rendered(version, date, n)) == [Header(version, date)]
  {
    hide Single, RStrip, SplitLines, GroupsLines, Join, IsSpace, HeaderPrefix, Strip;
    var header := Header(version, date);
    DateIsSingle(date);
    HeaderText(header);
    HeaderIsSingle(version, date);
    RenderedIsAllLines(version, date, n);
    assert AllLines(version, date, n) == [header, ""];
    assert header[|header| - 1] == date[|date| - 1];
    NothingToRStrip(header);
    SplitFirst(header, "");
    SplitEmpty();
    assert header + "\n" + "" == header + "\n";
  }

  lemma {:induction false} OnlyHeader(version: string, date: string, n: Notes)
    requires Single(version) && Single(date) && AreNotes(n) && GroupsLines(n, |ORDERED|) == []
    ensures Normalized(Rendered(version, date, n)) == n
  {
    hide TakeLine, Single, RStrip, SplitLines, Header, AreNotes, GroupsLines, FirstGroups;
    var header := Header(version, date);
    LinesOfGroups(n, |ORDERED|);
    AllGroups(n);
    HeaderText(header);
    HeaderIsSingle(version, date);
    RStripIsPrefix(header);
    SinglePrefix(header, RStrip(header));
    SplitFirst(RStrip(header), "");
    SplitEmpty();
    HeaderIsIgnored(Nothing, version, date, RStrip(header));
    TakeOne(Nothing, RStrip(header));
    assert [header, ""] + [] == [header, ""];
    assert RStrip(header) + "\n" + "" == RStrip(header) + "\n";
    assert [RStrip(header)] + [] == [RStrip(header)];
    hide TakeLines, Join;
  }

  lemma {:induction false} HeaderIsSingle(version: string, date: string)
    requires Single(version) && Single(date)
    ensures Single(Header(version, date))
  {
    PrefixIsSingle(version);
    SingleConcat(HeaderPrefix(version), date);
  }

  lemma {:induction false} HeaderText(header: string)
    ensures RStrip(Join([header, ""], "\n")) == RStrip(header)
  {
    RStripNewline(header);
    assert [header, ""][1..] == [""];
    assert Join([header, ""], "\n") == header + "\n" + "" == header + "\n";
    hide RStrip;
  }

  lemma {:induction false} RStripKeeps(s: string, k: nat)
    requires 0 < k <= |s| && !IsSpace(s[k - 1])
    ensures |RStrip(s)| >= k
  {
    if IsSpace(s[|s| - 1]) { RStripKeeps(s[..|s| - 1], k); }
  }

  /** A printed section is one that can be inserted into a changelog. */
  lemma {:induction false} PrintedIsReleaseSection(version: string, date: string, n: Notes)
    requires Single(version) && IsNote(date) && AreNotes(n)
    ensures IsReleaseSection(Rendered(version, date, n), version)
  {
    hide *;
    var text := Rendered(version, date, n);
    DateIsSingle(date);
    StartsWithHeader(version, date, n);
    if GroupsLines(n, |ORDERED|) == [] {
      HeaderAlone(version, date, n);
    } else {
      var all := AllLines(version, date, n);
      AllLinesAreSingle(version, date, n);
      AllEndWithNote(version, date, n);
      StripsOneBlankLine(all);
      RenderedIsAllLines(version, date, n);
      SlicesAreSingle(all, |all| - 1);
      UnlinesIsNewlineText(all[..|all| - 1]);
      NoHeaderInit(all);
    }
    ReleaseSectionIs(text, version);
  }

  lemma {:induction false} DateIsSingle(date: string)
    requires IsNote(date)
    ensures Single(date) && date != "" && !IsSpace(date[|date| - 1])
  {
    EndsOfNote(date);
  }

  lemma {:induction false} ReleaseSectionIs(text: string, version: string)
    requires NewlineText(text) && Single(version) && StartsWith(RStrip(text), HeaderPrefix(version))
    requires SplitLines(text) != [] && NoHeader(SplitLines(text)[1..])
    ensures IsReleaseSection(text, version)
  {
    hide NewlineText, Single, StartsWith, RStrip, SplitLines, NoHeader, HeaderPrefix;
  }

  lemma {:induction false} NoHeaderInit(lines: seq<string>)
    requires EndsWithNote(lines) && NoHeader(lines[1..])
    ensures lines[..|lines| - 1] != [] && NoHeader(lines[..|lines| - 1][1..])
  {
    hide StartsWith, IsSpace;
    var init := lines[..|lines| - 1];
    assert forall i :: 0 <= i < |init[1..]| ==> init[1..][i] == lines[1..][i];
  }

  lemma {:induction false} StartsWithHeader(version: string, date: string, n: Notes)
    requires date != "" && !IsSpace(date[|date| - 1])
    ensures StartsWith(RStrip(Rendered(version, date, n)), HeaderPrefix(version))
  {
    hide IsSpace, RStrip, Join, GroupsLines, HeaderPrefix;
    var header, all := Header(version, date), AllLines(version, date, n);
    var joined := Join(all, "\n");
    RenderedIsAllLines(version, date, n);
    JoinStep(header, all[1..], "\n");
    assert all == [header] + all[1..];
    assert header[|header| - 1] == date[|date| - 1] == joined[|header| - 1];
    RStripKeeps(joined, |header|);
    RStripIsPrefix(joined);
    var body := RStrip(joined);
    assert body[..|HeaderPrefix(version)|] == joined[..|HeaderPrefix(version)|] == HeaderPrefix(version);
    RStripNewline(body);
    RStripTwice(joined);
  }

  lemma {:induction false} RStripTwice(s: string)
    ensures RStrip(RStrip(s)) == RStrip(s)
  {
    RStripIsPrefix(s);
  }

  lemma {:induction false} HeaderAlone(version: string, date: string, n: Notes)
    requires Single(version) && Single(date) && AreNotes(n) && GroupsLines(n, |ORDERED|) == []
    ensures NewlineText(Rendered(version, date, n))
    ensures SplitLines(Rendered(version, date, n)) != [] && NoHeader(SplitLines(Rendered(version, date, n))[1..])
  {
    hide Single, RStrip, SplitLines, Header, AreNotes, GroupsLines, NewlineText, Join;
    var header := Header(version, date);
    HeaderText(header);
    HeaderIsSingle(version, date);
    RStripIsPrefix(header);
    var line := RStrip(header);
    SinglePrefix(header, line);
    RenderedIsAllLines(version, date, n);
    assert AllLines(version, date, n) == [header, ""];
    assert line + "\n" + "" == line + "\n";
    AllSingleSplits([line]);
    SplitEmpty();
    assert Unlines([line]) == line + "\n" + Unlines([]);
    assert [line][1..] == [];
    UnlinesIsNewlineText([line]);
    SplitUnlines([line]);
  }

  /**
   * The whole way round: a release's notes are printed, inserted into a changelog, extracted again
   * and read, and come back as they were.
   */
  lemma {:induction false} NotesSurviveTheChangelog(existing: string, version: string, date: string, n: Notes)
    requires NewlineText(existing) && Single(version) && IsNote(date) && AreNotes(n)
    requires Updated(existing, version, Rendered(version, date, n)).Some?
    ensures var text := Updated(existing, version, Rendered(version, date, n)).value;
      Extracted(text, version).Some? && Normalized(Extracted(text, version).value) == n
  {
    hide *;
    var section := Rendered(version, date, n);
    DateIsSingle(date);
    PrintedIsReleaseSection(version, date, n);
    InsertedSectionIsFound(existing, version, section);
    ReadingUndoesPrinting(version, date, n);
    RenderedIsAllLines(version, date, n);
    RStripNewline(RStrip(Join(AllLines(version, date, n), "\n")));
    RStripTwice(Join(AllLines(version, date, n), "\n"));
  }
}
