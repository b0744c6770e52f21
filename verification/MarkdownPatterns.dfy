/**
 The patterns of `src/lib/readingDiff.ts` and `src/lib/diff.ts`, each as the ways a line can be cut into
 the parts its pattern names.  The line tests of `Markdown` are proved to accept exactly those lines.
 */
module MarkdownPatterns {
  import opened Wrappers
  import opened Markdown

  // ----- runs of characters

  ghost predicate AllSpace(s: string) { forall k :: 0 <= k < |s| ==> IsSpace(s[k]) }

  ghost predicate AllDigits(s: string) { forall k :: 0 <= k < |s| ==> IsDigit(s[k]) }

  ghost predicate AllEqual(s: string, c: char) { forall k :: 0 <= k < |s| ==> s[k] == c }

  /** Not empty, and neither end is white space. */
  predicate Tight(s: string) { s != [] && !IsSpace(s[0]) && !IsSpace(s[|s| - 1]) }

  lemma {:induction false} LeadingSpacesOf(before: string, rest: string)
    requires AllSpace(before) && (rest == [] || !IsSpace(rest[0]))
    ensures LeadingSpaces(before + rest) == |before| && TrimStart(before + rest) == rest
  {
    hide IsSpace;
    if before == [] {
      assert before + rest == rest;
    } else {
      LeadingSpacesOf(before[1..], rest);
      assert (before + rest)[1..] == before[1..] + rest;
    }
  }

  lemma {:induction false} LeadingSpacesAreSpace(s: string)
    ensures AllSpace(s[..LeadingSpaces(s)]) && s == s[..LeadingSpaces(s)] + TrimStart(s)
    ensures TrimStart(s) != [] ==> !IsSpace(TrimStart(s)[0])
  {
    hide IsSpace;
    if s != [] && IsSpace(s[0]) {
      LeadingSpacesAreSpace(s[1..]);
      var n := LeadingSpaces(s);
      assert forall k :: 1 <= k < n ==> s[k] == s[1..][..n - 1][k - 1];
    }
  }

  lemma {:induction false} TrimEndOf(s: string, after: string)
    requires AllSpace(after) && (s == [] || !IsSpace(s[|s| - 1]))
    ensures TrimEnd(s + after) == s
    decreases |after|
  {
    hide IsSpace;
    if after == [] {
      assert s + after == s;
    } else {
      TrimEndOf(s, after[..|after| - 1]);
      assert (s + after)[..|s + after| - 1] == s + after[..|after| - 1];
    }
  }

  lemma {:induction false} TrimmedEndIsSpace(s: string)
    ensures AllSpace(s[|TrimEnd(s)|..])
    decreases |s|
  {
    hide IsSpace;
    if s != [] && IsSpace(s[|s| - 1]) {
      TrimmedEndIsSpace(s[..|s| - 1]);
      var n := |TrimEnd(s)|;
      assert forall k :: 0 <= k < |s| - 1 - n ==> s[n..][k] == s[..|s| - 1][n..][k];
    }
  }

  /** `core` stands between white space, on the left at most three columns where a block may open. */
  ghost predicate Surrounds(line: string, before: string, core: string, after: string) {
    line == before + core + after && AllSpace(before) && AllSpace(after)
  }

  /** Trimming finds the one way to cut a line into white space around something tight. */
  lemma TrimIs(line: string, before: string, core: string, after: string)
    requires Surrounds(line, before, core, after) && Tight(core)
    ensures Trim(line) == core && LeadingSpaces(line) == |before|
  {
    hide IsSpace;
    assert line == before + (core + after);
    LeadingSpacesOf(before, core + after);
    TrimEndOf(core, after);
  }

  lemma TrimCuts(line: string) returns (before: string, after: string)
    ensures Surrounds(line, before, Trim(line), after) && |before| == LeadingSpaces(line)
    ensures Trim(line) != [] ==> Tight(Trim(line))
  {
    hide IsSpace, TrimEnd;
    LeadingSpacesAreSpace(line);
    TrimmedEndIsSpace(TrimStart(line));
    before := line[..LeadingSpaces(line)];
    after := TrimStart(line)[|Trim(line)|..];
    if TrimStart(line) != [] {
      TrimEndKeepsHead(TrimStart(line));
    }
  }

  // ----- blank lines and quotes

  /** A line is blank exactly when there is nothing but white space in it. */
  lemma BlankIsSpace(line: string)
    ensures IsBlank(line) <==> AllSpace(line)
  {
    hide IsSpace, Trim, LeadingSpaces;
    var before, after := TrimCuts(line);
    if !IsBlank(line) {
      assert line[|before|] == Trim(line)[0];
    }
  }

  /** `/^\s*>/`. */
  ghost predicate QuoteLine(line: string) {
    exists before, rest :: line == before + ['>'] + rest && AllSpace(before)
  }

  lemma MarkOfQuote()
    ensures !IsSpace('>')
  {
  }

  lemma QuoteIsPattern(line: string)
    ensures IsQuote(line) <==> QuoteLine(line)
  {
    hide IsSpace, LeadingSpaces;
    LeadingSpacesAreSpace(line);
    MarkOfQuote();
    if IsQuote(line) {
      var n := LeadingSpaces(line);
      assert line == line[..n] + ['>'] + TrimStart(line)[1..];
    }
    if QuoteLine(line) {
      var before, rest :| line == before + ['>'] + rest && AllSpace(before);
      assert line == before + (['>'] + rest);
      LeadingSpacesOf(before, ['>'] + rest);
    }
  }

  // ----- table delimiters and indentation

  /** A pipe, a dash, and nothing but pipes, dashes, colons and white space. */
  ghost predicate DelimiterLine(line: string) {
    '|' in line && '-' in line && forall k :: 0 <= k < |line| ==> line[k] in "|:-" || IsSpace(line[k])
  }

  /** `/^[\s|:-]+$/` on the trimmed line, of a line with a pipe and a dash. */
  lemma DelimiterIsPattern(line: string)
    ensures IsTableDelimiter(line) <==> DelimiterLine(line)
  {
    hide IsSpace, Trim, LeadingSpaces;
    var before, after := TrimCuts(line);
    var core, n := Trim(line), |before|;
    assert forall k :: 0 <= k < |core| ==> line[n + k] == core[k];
    forall k | 0 <= k < |line| && !(n <= k < n + |core|) ensures IsSpace(line[k]) {
      assert k < n ==> line[k] == before[k];
      assert k >= n + |core| ==> line[k] == after[k - n - |core|];
    }
    if core == [] && '|' in line {
      var k :| 0 <= k < |line| && line[k] == '|';
      PipeIsVisible();
    }
    forall k | 0 <= k < |line| && n <= k < n + |core| ensures line[k] == core[k - n] {
    }
  }

  lemma PipeIsVisible()
    ensures !IsSpace('|')
  {
  }

  /** `/^\s{2,}/`. */
  lemma IndentIsPattern(line: string)
    ensures IsIndented(line) <==> exists before, rest :: line == before + rest && |before| == 2 && AllSpace(before)
  {
    hide IsSpace;
    if IsIndented(line) {
      assert line == line[..2] + line[2..] && AllSpace(line[..2]);
    }
  }

  // ----- headings

  /** One to six `#`, white space, and a text on one line that starts and ends in something visible. */
  ghost predicate HeadingParts(
    line: string, level: nat, text: string, before: string, hashes: string, gap: string, after: string)
  {
    && line == before + hashes + gap + text + after
    && AllSpace(before) && |before| <= 3 && AllEqual(hashes, '#') && |hashes| == level && 1 <= level <= 6
    && AllSpace(gap) && gap != [] && Tight(text) && AllSpace(after) && OnOneLine(text)
  }

  ghost predicate OnOneLine(text: string) { forall k :: 0 <= k < |text| ==> !IsLineTerminator(text[k]) }

  ghost predicate HeadingLine(line: string, level: nat, text: string) {
    exists before, hashes, gap, after :: HeadingParts(line, level, text, before, hashes, gap, after)
  }

  lemma {:induction false} LeadingRunOf(run: string, c: char, rest: string)
    requires AllEqual(run, c) && (rest == [] || rest[0] != c)
    ensures LeadingRun(run + rest, c) == |run|
  {
    if run == [] {
      assert run + rest == rest;
    } else {
      LeadingRunOf(run[1..], c, rest);
      assert (run + rest)[1..] == run[1..] + rest;
    }
  }

  lemma {:induction false} LeadingRunIsEqual(s: string, c: char)
    ensures AllEqual(s[..LeadingRun(s, c)], c)
    ensures LeadingRun(s, c) < |s| ==> s[LeadingRun(s, c)] != c
  {
    if s != [] && s[0] == c {
      LeadingRunIsEqual(s[1..], c);
      var n := LeadingRun(s, c);
      assert forall k :: 1 <= k < n ==> s[k] == s[1..][..n - 1][k - 1];
    }
  }

  lemma HeadingFollows(line: string, h: Heading, before: string, hashes: string, gap: string, after: string)
    requires HeadingParts(line, h.level, h.text, before, hashes, gap, after)
    ensures HeadingOf(line) == Some(h)
  {
    hide IsLineTerminator, Trim, LeadingSpaces, TrimStart;
    var core := hashes + gap + h.text;
    assert line == before + core + after;
    TrimIs(line, before, core, after);
    assert core == hashes + (gap + h.text);
    LeadingRunOf(hashes, '#', gap + h.text);
    LeadingSpacesOf(gap, h.text);
    assert core[h.level..] == gap + h.text;
  }

  /** What follows the hashes of a heading's core: white space, then the text. */
  lemma GapAndText(core: string, level: nat) returns (gap: string)
    requires Tight(core) && level < |core| && IsSpace(core[level])
    ensures var text := TrimStart(core[level..]);
      core[level..] == gap + text && AllSpace(gap) && gap != [] && Tight(text)
  {
    hide IsSpace, TrimStart, LeadingSpaces;
    var rest := core[level..];
    LeadingSpacesAreSpace(rest);
    gap := rest[..LeadingSpaces(rest)];
    var text := TrimStart(rest);
    assert rest[0] == core[level] && rest[|rest| - 1] == core[|core| - 1];
    assert text == [] ==> rest == gap;
    assert gap == [] ==> rest == text;
    assert text != [] ==> text[|text| - 1] == rest[|rest| - 1];
  }

  lemma HeadingCuts(line: string, h: Heading)
    requires HeadingOf(line) == Some(h)
    ensures HeadingLine(line, h.level, h.text)
  {
    hide IsSpace, IsLineTerminator, Trim, TrimStart, LeadingSpaces, LeadingRun, Tight, AllSpace, AllEqual;
    var before, after := TrimCuts(line);
    var core := Trim(line);
    LeadingRunIsEqual(core, '#');
    var gap := GapAndText(core, h.level);
    assert core == core[..h.level] + gap + h.text;
    assert line == before + core[..h.level] + gap + h.text + after;
    assert HeadingParts(line, h.level, h.text, before, core[..h.level], gap, after);
  }

  /** `/^\s{0,3}(#{1,6})\s+(.*\S)\s*$/`, with its two groups. */
  lemma HeadingIsPattern(line: string, h: Heading)
    ensures HeadingOf(line) == Some(h) <==> HeadingLine(line, h.level, h.text)
  {
    hide HeadingOf, HeadingParts;
    if HeadingLine(line, h.level, h.text) {
      var before, hashes, gap, after :| HeadingParts(line, h.level, h.text, before, hashes, gap, after);
      HeadingFollows(line, h, before, hashes, gap, after);
    }
    if HeadingOf(line) == Some(h) {
      HeadingCuts(line, h);
    }
  }

  // ----- fences

  /** Three or more of one mark, as many as there are. */
  ghost predicate FenceParts(line: string, marker: string, before: string, rest: string) {
    && line == before + marker + rest && AllSpace(before) && |before| <= 3
    && |marker| >= 3 && marker[0] in "`~" && AllEqual(marker, marker[0]) && (rest == [] || rest[0] != marker[0])
  }

  ghost predicate FenceLine(line: string, marker: string) {
    exists before, rest :: FenceParts(line, marker, before, rest)
  }

  lemma FenceFollows(line: string, marker: string, before: string, rest: string)
    requires FenceParts(line, marker, before, rest)
    ensures FenceOf(line) == Some(marker)
  {
    hide LeadingSpaces, LeadingRun, TrimStart;
    assert line == before + (marker + rest) && (marker + rest)[0] == marker[0];
    MarksAreVisible(marker[0]);
    LeadingSpacesOf(before, marker + rest);
    LeadingRunOf(marker, marker[0], rest);
    assert (marker + rest)[..|marker|] == marker;
  }

  lemma MarksAreVisible(c: char)
    requires c in "`~"
    ensures !IsSpace(c)
  {
  }

  lemma FenceCuts(line: string, marker: string)
    requires FenceOf(line) == Some(marker)
    ensures FenceLine(line, marker)
  {
    hide LeadingSpaces, LeadingRun, TrimStart, IsSpace;
    LeadingSpacesAreSpace(line);
    var core := TrimStart(line);
    LeadingRunIsEqual(core, core[0]);
    assert line == line[..LeadingSpaces(line)] + marker + core[|marker|..];
    assert marker[0] == core[0];
    assert FenceParts(line, marker, line[..LeadingSpaces(line)], core[|marker|..]);
  }

  /** The fence's pattern: up to three columns, then three or more backticks or three or more tildes. */
  lemma FenceIsPattern(line: string, marker: string)
    ensures FenceOf(line) == Some(marker) <==> FenceLine(line, marker)
  {
    hide FenceOf, FenceParts;
    if FenceLine(line, marker) {
      var before, rest :| FenceParts(line, marker, before, rest);
      FenceFollows(line, marker, before, rest);
    }
    if FenceOf(line) == Some(marker) {
      FenceCuts(line, marker);
    }
  }

  // ----- list items

  ghost predicate IsBullet(mark: string) { |mark| == 1 && mark[0] in "-*+" }

  /** One to nine digits and a dot or a closing parenthesis. */
  ghost predicate IsNumber(mark: string) {
    2 <= |mark| <= 10 && AllDigits(mark[..|mark| - 1]) && mark[|mark| - 1] in ".)"
  }

  ghost predicate ItemLine(line: string) {
    exists before, mark, rest ::
      && line == before + mark + rest && AllSpace(before) && |before| <= 3
      && (IsBullet(mark) || IsNumber(mark)) && rest != [] && IsSpace(rest[0])
  }

  lemma {:induction false} LeadingDigitsOf(digits: string, rest: string)
    requires AllDigits(digits) && (rest == [] || !IsDigit(rest[0]))
    ensures LeadingDigits(digits + rest) == |digits|
  {
    if digits == [] {
      assert digits + rest == rest;
    } else {
      LeadingDigitsOf(digits[1..], rest);
      assert (digits + rest)[1..] == digits[1..] + rest;
    }
  }

  lemma {:induction false} LeadingDigitsAreDigits(s: string)
    ensures AllDigits(s[..LeadingDigits(s)])
  {
    if s != [] && IsDigit(s[0]) {
      LeadingDigitsAreDigits(s[1..]);
      var n := LeadingDigits(s);
      assert forall k :: 1 <= k < n ==> s[k] == s[1..][..n - 1][k - 1];
    }
  }

  lemma MarkIsVisible(mark: string)
    requires IsBullet(mark) || IsNumber(mark)
    ensures mark != [] && !IsSpace(mark[0])
  {
    assert IsNumber(mark) ==> mark[0] == mark[..|mark| - 1][0];
  }

  lemma ItemFollows(line: string, before: string, mark: string, rest: string)
    requires line == before + mark + rest && AllSpace(before) && |before| <= 3
    requires (IsBullet(mark) || IsNumber(mark)) && rest != [] && IsSpace(rest[0])
    ensures IsListItem(line)
  {
    hide IsSpace, LeadingSpaces, TrimStart, LeadingDigits;
    MarkIsVisible(mark);
    assert line == before + (mark + rest);
    LeadingSpacesOf(before, mark + rest);
    var core := mark + rest;
    if IsNumber(mark) {
      var n := |mark| - 1;
      assert core == mark[..n] + (mark[n..] + rest);
      assert (mark[n..] + rest)[0] == mark[n];
      LeadingDigitsOf(mark[..n], mark[n..] + rest);
    }
  }

  /** `/^\s{0,3}([-*+]|\d{1,9}[.)])\s+/`. */
  lemma ItemIsPattern(line: string)
    ensures IsListItem(line) <==> ItemLine(line)
  {
    hide IsSpace, LeadingSpaces;
    if ItemLine(line) {
      var before, mark, rest :|
        && line == before + mark + rest && AllSpace(before) && |before| <= 3
        && (IsBullet(mark) || IsNumber(mark)) && rest != [] && IsSpace(rest[0]);
      ItemFollows(line, before, mark, rest);
    }
    if IsListItem(line) {
      LeadingSpacesAreSpace(line);
      var core := TrimStart(line);
      var n := LeadingDigits(core);
      LeadingDigitsAreDigits(core);
      var m := if |core| > 1 && core[0] in "-*+" && IsSpace(core[1]) then 1 else n + 1;
      assert line == line[..LeadingSpaces(line)] + core[..m] + core[m..];
      assert core[..m][..m - 1] == core[..m - 1];
      assert IsBullet(core[..m]) || IsNumber(core[..m]);
    }
  }

  // ----- rules

  /** The mark again after each of the gaps. */
  function Spaced(gaps: seq<string>, c: char): string {
    if gaps == [] then [] else gaps[0] + [c] + Spaced(gaps[1..], c)
  }

  /** A mark, the same mark at least twice more with white space between, and white space to the end. */
  ghost predicate RuleLine(line: string) {
    exists before, c, gaps: seq<string>, after ::
      && line == before + ([c] + Spaced(gaps, c)) + after && AllSpace(before) && |before| <= 3 && AllSpace(after)
      && c in "-*_" && |gaps| >= 2 && forall k :: 0 <= k < |gaps| ==> AllSpace(gaps[k])
  }

  lemma {:induction false} OccurrencesConcat(x: string, y: string, c: char)
    ensures Occurrences(x + y, c) == Occurrences(x, c) + Occurrences(y, c)
  {
    if x == [] {
      assert x + y == y;
    } else {
      OccurrencesConcat(x[1..], y, c);
      assert (x + y)[1..] == x[1..] + y;
    }
  }

  lemma {:induction false} NoOccurrences(s: string, c: char)
    requires AllSpace(s) && !IsSpace(c)
    ensures Occurrences(s, c) == 0
  {
    if s != [] {
      NoOccurrences(s[1..], c);
    }
  }

  lemma {:induction false} SpacedFacts(gaps: seq<string>, c: char)
    requires !IsSpace(c) && forall k :: 0 <= k < |gaps| ==> AllSpace(gaps[k])
    ensures var s := Spaced(gaps, c);
      && Occurrences(s, c) == |gaps| && (forall k :: 0 <= k < |s| ==> s[k] == c || IsSpace(s[k]))
      && (gaps != [] ==> s != [] && s[|s| - 1] == c)
  {
    hide IsSpace;
    if gaps != [] {
      SpacedFacts(gaps[1..], c);
      NoOccurrences(gaps[0], c);
      OccurrencesConcat(gaps[0] + [c], Spaced(gaps[1..], c), c);
      OccurrencesConcat(gaps[0], [c], c);
    }
  }

  /** White space and marks, ending in a mark, are gaps with a mark after each. */
  lemma {:induction false} CutsIntoGaps(s: string, c: char) returns (gaps: seq<string>)
    requires !IsSpace(c) && (forall k :: 0 <= k < |s| ==> s[k] == c || IsSpace(s[k]))
    requires s != [] ==> s[|s| - 1] == c
    ensures s == Spaced(gaps, c) && |gaps| == Occurrences(s, c)
    ensures forall k :: 0 <= k < |gaps| ==> AllSpace(gaps[k])
    decreases |s|
  {
    hide IsSpace;
    if s == [] {
      return [];
    }
    LeadingSpacesAreSpace(s);
    var n := LeadingSpaces(s);
    assert s[|s| - 1] == c;
    assert s[n] == c;
    var rest := CutsIntoGaps(s[n + 1..], c);
    gaps := [s[..n]] + rest;
    assert gaps[1..] == rest;
    assert s == s[..n] + [c] + s[n + 1..];
    NoOccurrences(s[..n], c);
    OccurrencesConcat(s[..n] + [c], s[n + 1..], c);
    OccurrencesConcat(s[..n], [c], c);
  }

  lemma RuleFollows(line: string, before: string, c: char, gaps: seq<string>, after: string)
    requires line == before + ([c] + Spaced(gaps, c)) + after && AllSpace(before) && |before| <= 3 && AllSpace(after)
    requires c in "-*_" && |gaps| >= 2 && forall k :: 0 <= k < |gaps| ==> AllSpace(gaps[k])
    ensures IsRule(line)
  {
    hide Trim, LeadingSpaces;
    var core := [c] + Spaced(gaps, c);
    SpacedFacts(gaps, c);
    TrimIs(line, before, core, after);
    OccurrencesConcat([c], Spaced(gaps, c), c);
  }

  lemma RuleCuts(line: string)
    requires IsRule(line)
    ensures RuleLine(line)
  {
    hide Trim, LeadingSpaces;
    var before, after := TrimCuts(line);
    var core := Trim(line);
    var c := core[0];
    OccurrencesConcat([c], core[1..], c);
    assert core == [c] + core[1..];
    if |core| > 1 {
      assert core[|core| - 1] == core[1..][|core| - 2];
    }
    var gaps := CutsIntoGaps(core[1..], c);
    assert line == before + ([c] + Spaced(gaps, c)) + after;
  }

  /** The rule's pattern: one of `-`, `*`, `_`, and the same mark at least twice more. */
  lemma RuleIsPattern(line: string)
    ensures IsRule(line) <==> RuleLine(line)
  {
    hide IsRule;
    if RuleLine(line) {
      var before, c, gaps: seq<string>, after :|
        && line == before + ([c] + Spaced(gaps, c)) + after && AllSpace(before) && |before| <= 3 && AllSpace(after)
        && c in "-*_" && |gaps| >= 2 && forall k :: 0 <= k < |gaps| ==> AllSpace(gaps[k]);
      RuleFollows(line, before, c, gaps, after);
    }
    if IsRule(line) {
      RuleCuts(line);
    }
  }
}
