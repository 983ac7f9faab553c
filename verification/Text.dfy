/** Python string operations the release tools use: splitting into lines, joining and stripping. */
module Text {
  /** The characters at which `str.splitlines` breaks. */
  predicate IsBreak(c: char) {
    c == '\n' || c == '\r' || (11 as char) <= c <= (12 as char) || (28 as char) <= c <= (30 as char)
    || c == (0x85 as char) || c == (0x2028 as char) || c == (0x2029 as char)
  }

  /** The characters `str.strip` removes. */
  predicate IsSpace(c: char) {
    IsBreak(c) || c == ' ' || c == '\t' || c == (31 as char) || c == (0xa0 as char) || c == (0x1680 as char)
    || (0x2000 as char) <= c <= (0x200a as char) || c == (0x202f as char) || c == (0x205f as char) || c == (0x3000 as char)
  }

  predicate StartsWith(s: string, prefix: string) {
    |prefix| <= |s| && s[..|prefix|] == prefix
  }

  function RStrip(s: string): string {
    if s != "" && IsSpace(s[|s| - 1]) then RStrip(s[..|s| - 1]) else s
  }

  function LStrip(s: string): string {
    if s != "" && IsSpace(s[0]) then LStrip(s[1..]) else s
  }

  function Strip(s: string): string {
    RStrip(LStrip(s))
  }

  function FirstBreak(s: string): (i: nat)
    ensures i <= |s| && (i < |s| ==> IsBreak(s[i]))
  {
    if s == "" || IsBreak(s[0]) then 0 else 1 + FirstBreak(s[1..])
  }

  /** `str.splitlines`: a carriage return and a newline together are one break. */
  function SplitLines(s: string): seq<string> {
    var i := FirstBreak(s);
    if s == "" then []
    else if i == |s| then [s]
    else
      var width := if s[i] == '\r' && i + 1 < |s| && s[i + 1] == '\n' then 2 else 1;
      [s[..i]] + SplitLines(s[i + width..])
  }

  function Join(lines: seq<string>, separator: string): string {
    if lines == [] then ""
    else if |lines| == 1 then lines[0]
    else lines[0] + separator + Join(lines[1..], separator)
  }

  predicate Single(s: string) {
    forall i :: 0 <= i < |s| ==> !IsBreak(s[i])
  }

  ghost predicate AllSingle(lines: seq<string>) {
    forall i :: 0 <= i < |lines| ==> Single(lines[i])
  }

  /** Text whose only line breaks are newlines, as read from a file in text mode. */
  predicate NewlineText(s: string) {
    forall i :: 0 <= i < |s| ==> IsBreak(s[i]) ==> s[i] == '\n'
  }

  /** Every line with a newline after it. */
  function Unlines(lines: seq<string>): string {
    if lines == [] then "" else lines[0] + "\n" + Unlines(lines[1..])
  }

  lemma {:induction false} BreakAfter(line: string, rest: string)
    requires Single(line)
    ensures FirstBreak(line + "\n" + rest) == |line|
  {
    var s := line + "\n" + rest;
    if line != "" {
      assert s[0] == line[0] && s[1..] == line[1..] + "\n" + rest;
      assert forall i :: 0 <= i < |line[1..]| ==> line[1..][i] == line[i + 1];
      BreakAfter(line[1..], rest);
    }
  }

  lemma {:induction false} NoBreak(line: string)
    ensures Single(line) <==> FirstBreak(line) == |line|
    ensures Single(line[..FirstBreak(line)])
  {
    if line != "" && !IsBreak(line[0]) {
      NoBreak(line[1..]);
      assert line[..FirstBreak(line)] == [line[0]] + line[1..][..FirstBreak(line[1..])];
      assert forall i :: 0 < i < |line| ==> line[i] == line[1..][i - 1];
    }
  }

  lemma {:induction false} SplitFirst(line: string, rest: string)
    requires Single(line)
    ensures SplitLines(line + "\n" + rest) == [line] + SplitLines(rest)
  {
    BreakAfter(line, rest);
    var s := line + "\n" + rest;
    assert s[..|line|] == line && s[|line| + 1..] == rest && s[|line|] == '\n';
  }

  /** Splitting at any other break: one character, or a carriage return and a newline together. */
  lemma {:induction false} SplitAtBreak(line: string, br: string, rest: string)
    requires Single(line)
    requires br == "\r\n" || (|br| == 1 && IsLineBreak(br[0] as int) && !(br == "\r" && rest != "" && rest[0] == '\n'))
    ensures SplitLines(line + br + rest) == [line] + SplitLines(rest)
  {
    var s := line + br + rest;
    BreaksAreListed(br[0]);
    FirstBreakAt(line, br + rest);
    assert s == line + (br + rest);
    assert s[..|line|] == line && s[|line| + |br|..] == rest && s[|line|] == br[0];
    if |br| == 2 {
      assert s[|line| + 1] == '\n';
    } else if rest != "" {
      assert s[|line| + 1] == rest[0];
    }
  }

  lemma {:induction false} FirstBreakAt(line: string, rest: string)
    requires Single(line) && rest != "" && IsBreak(rest[0])
    ensures FirstBreak(line + rest) == |line|
  {
    var s := line + rest;
    if line != "" {
      assert s[0] == line[0] && s[1..] == line[1..] + rest;
      assert forall i :: 0 <= i < |line[1..]| ==> line[1..][i] == line[i + 1];
      FirstBreakAt(line[1..], rest);
    } else {
      assert s == rest;
    }
  }

  /** The code points at which Python ends a line. */
  predicate IsLineBreak(code: int) {
    code in {10, 11, 12, 13, 28, 29, 30, 133, 8232, 8233}
  }

  /** The code points Python takes for white space. */
  predicate IsWhiteSpace(code: int) {
    code in {9, 10, 11, 12, 13, 28, 29, 30, 31, 32, 133, 160, 5760, 8192, 8193, 8194, 8195, 8196, 8197, 8198, 8199, 8200, 8201, 8202,
             8232, 8233, 8239, 8287, 12288}
  }

  lemma {:induction false} BreaksAreListed(c: char)
    ensures IsBreak(c) <==> IsLineBreak(c as int)
    ensures IsSpace(c) <==> IsWhiteSpace(c as int)
  {
    assert c as int as char == c;
  }

  /** Stripping takes all the white space off both ends and nothing else. */
  lemma {:induction false} StripTakesTheEnds(s: string) returns (before: string, after: string)
    ensures s == before + Strip(s) + after
    ensures forall i :: 0 <= i < |before| ==> IsWhiteSpace(before[i] as int)
    ensures forall i :: 0 <= i < |after| ==> IsWhiteSpace(after[i] as int)
    ensures Strip(s) != "" ==> !IsWhiteSpace(Strip(s)[0] as int) && !IsWhiteSpace(Strip(s)[|Strip(s)| - 1] as int)
  {
    hide IsSpace, IsWhiteSpace, LStrip, RStrip;
    before := LStripTakes(s);
    after := RStripTakes(LStrip(s));
    assert s == before + (Strip(s) + after);
    LStripEmpty(s);
    RStripIsPrefix(LStrip(s));
    if Strip(s) != "" {
      assert Strip(s)[0] == LStrip(s)[0];
      BreaksAreListed(Strip(s)[0]);
      BreaksAreListed(Strip(s)[|Strip(s)| - 1]);
    }
  }

  lemma {:induction false} LStripTakes(s: string) returns (before: string)
    ensures s == before + LStrip(s) && forall i :: 0 <= i < |before| ==> IsWhiteSpace(before[i] as int)
  {
    hide IsSpace, IsWhiteSpace;
    before := "";
    if s != "" && IsSpace(s[0]) {
      BreaksAreListed(s[0]);
      var more := LStripTakes(s[1..]);
      before := [s[0]] + more;
    }
  }

  lemma {:induction false} RStripTakes(s: string) returns (after: string)
    ensures s == RStrip(s) + after && forall i :: 0 <= i < |after| ==> IsWhiteSpace(after[i] as int)
  {
    hide IsSpace, IsWhiteSpace;
    after := "";
    if s != "" && IsSpace(s[|s| - 1]) {
      BreaksAreListed(s[|s| - 1]);
      var more := RStripTakes(s[..|s| - 1]);
      after := more + [s[|s| - 1]];
    }
  }

  lemma {:induction false} SplitEmpty()
    ensures SplitLines("") == [] && AllSingle([])
  {
  }

  lemma {:induction false} SplitSingle(line: string)
    requires Single(line) && line != ""
    ensures SplitLines(line) == [line]
  {
    NoBreak(line);
  }

  lemma {:induction false} AllSingleSplits(lines: seq<string>)
    requires lines != []
    ensures AllSingle(lines) <==> Single(lines[0]) && AllSingle(lines[1..])
  {
    hide Single;
    assert forall i :: 0 <= i < |lines[1..]| ==> lines[1..][i] == lines[i + 1];
    if Single(lines[0]) && AllSingle(lines[1..]) {
      forall i | 0 <= i < |lines| ensures Single(lines[i]) {
        if i > 0 { assert Single(lines[1..][i - 1]); }
      }
    }
  }

  /** Splitting undoes ending every line with a newline. */
  lemma {:induction false} SplitUnlines(lines: seq<string>)
    requires AllSingle(lines)
    ensures SplitLines(Unlines(lines)) == lines
  {
    hide Single, AllSingle, SplitLines, FirstBreak, IsBreak;
    SplitEmpty();
    if lines != [] {
      AllSingleSplits(lines);
      SplitFirst(lines[0], Unlines(lines[1..]));
      SplitUnlines(lines[1..]);
    }
  }

  /** And joining undoes splitting, up to the newline at the end. */
  lemma {:induction false} UnlinesOfSplit(s: string)
    requires NewlineText(s)
    ensures AllSingle(SplitLines(s))
    ensures Unlines(SplitLines(s)) == if s == "" || s[|s| - 1] == '\n' then s else s + "\n"
    decreases |s|
  {
    hide Single, AllSingle, SplitLines, FirstBreak, IsBreak, NewlineText;
    SplitEmpty();
    if s != "" {
      NoBreak(s);
      var i := FirstBreak(s);
      if i == |s| {
        assert s[..i] == s;
        SplitSingle(s);
        AllSingleSplits([s]);
        NoNewline(s);
        assert Unlines([s]) == s + "\n" + Unlines([]);
      } else {
        var line, rest := s[..i], s[i + 1..];
        BreakIsNewline(s);
        assert s == line + "\n" + rest;
        SplitFirst(line, rest);
        UnlinesOfSplit(rest);
        AllSingleSplits([line] + SplitLines(rest));
        assert ([line] + SplitLines(rest))[1..] == SplitLines(rest);
        assert rest != "" ==> rest[|rest| - 1] == s[|s| - 1];
      }
    }
  }

  lemma {:induction false} NoNewline(s: string)
    requires Single(s) && s != ""
    ensures s[|s| - 1] != '\n'
  {
  }

  lemma {:induction false} BreakIsNewline(s: string)
    requires NewlineText(s) && FirstBreak(s) < |s|
    ensures s[FirstBreak(s)] == '\n' && NewlineText(s[FirstBreak(s) + 1..])
  {
    var n := FirstBreak(s) + 1;
    var rest := s[n..];
    assert forall k :: 0 <= k < |rest| ==> rest[k] == s[k + n];
  }

  lemma {:induction false} UnlinesConcat(a: seq<string>, b: seq<string>)
    ensures Unlines(a + b) == Unlines(a) + Unlines(b)
  {
    if a == [] {
      assert a + b == b;
    } else {
      assert (a + b)[1..] == a[1..] + b;
      UnlinesConcat(a[1..], b);
    }
  }

  lemma {:induction false} JoinUnlines(lines: seq<string>)
    requires lines != []
    ensures Join(lines, "\n") + "\n" == Unlines(lines)
  {
    if |lines| > 1 { JoinUnlines(lines[1..]); }
  }

  lemma {:induction false} RStripIsPrefix(s: string)
    ensures RStrip(s) <= s
    ensures RStrip(s) != "" ==> !IsSpace(RStrip(s)[|RStrip(s)| - 1])
  {
    if s != "" && IsSpace(s[|s| - 1]) { RStripIsPrefix(s[..|s| - 1]); }
  }

  lemma {:induction false} RStripNewline(s: string)
    ensures RStrip(s + "\n") == RStrip(s)
  {
    assert (s + "\n")[..|s|] == s;
  }

  lemma {:induction false} StripSpaces(s: string)
    ensures Strip(s) == "" <==> forall i :: 0 <= i < |s| ==> IsSpace(s[i])
  {
    LStripEmpty(s);
    RStripEmpty(LStrip(s));
  }

  lemma {:induction false} LStripEmpty(s: string)
    ensures LStrip(s) == "" <==> forall i :: 0 <= i < |s| ==> IsSpace(s[i])
    ensures LStrip(s) != "" ==> !IsSpace(LStrip(s)[0])
  {
    if s != "" && IsSpace(s[0]) {
      LStripEmpty(s[1..]);
      assert forall i :: 0 < i < |s| ==> s[i] == s[1..][i - 1];
    }
  }

  lemma {:induction false} RStripEmpty(s: string)
    ensures RStrip(s) == "" <==> forall i :: 0 <= i < |s| ==> IsSpace(s[i])
  {
    if s != "" && IsSpace(s[|s| - 1]) { RStripEmpty(s[..|s| - 1]); }
  }

  /** Cutting text short cuts its lines short. */
  lemma {:induction false} LinesOfPrefix(p: string, s: string)
    requires NewlineText(s) && p <= s
    ensures |SplitLines(p)| <= |SplitLines(s)|
    ensures forall k :: 0 <= k < |SplitLines(p)| ==> SplitLines(p)[k] <= SplitLines(s)[k]
    decreases |s|
  {
    hide Single, AllSingle, SplitLines, FirstBreak, IsBreak, NewlineText;
    SplitEmpty();
    if p != "" {
      var i := FirstBreak(s);
      NoBreak(s);
      if i < |p| {
        BreakIsNewline(s);
        assert s == s[..i] + "\n" + s[i + 1..];
        assert p == s[..i] + "\n" + p[i + 1..];
        SplitFirst(s[..i], s[i + 1..]);
        SplitFirst(s[..i], p[i + 1..]);
        LinesOfPrefix(p[i + 1..], s[i + 1..]);
      } else {
        FirstLine(s);
        SinglePrefix(s[..i], p);
        SplitSingle(p);
      }
    }
  }

  lemma {:induction false} FirstLine(s: string)
    requires s != ""
    ensures SplitLines(s) != [] && SplitLines(s)[0] == s[..FirstBreak(s)]
  {
  }

  lemma {:induction false} SinglePrefix(line: string, p: string)
    requires Single(line) && p <= line
    ensures Single(p)
  {
  }
}
