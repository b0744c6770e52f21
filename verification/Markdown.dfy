/**
 How both diffs read a line of Markdown: the white space of the browser's regular expressions and
 the line tests of `src/lib/readingDiff.ts`, each written out as the function its pattern denotes.
 */
module Markdown {
  import opened Wrappers

  // ----- characters

  /** The characters `\s` matches and `trim` removes. */
  predicate IsSpace(c: char) {
    || c in "\t\n\r \U{0B}\U{0C}\U{A0}\U{1680}\U{2028}\U{2029}\U{202F}\U{205F}\U{3000}\U{FEFF}"
    || '\U{2000}' <= c <= '\U{200A}'
  }

  /** The characters `.` does not match. */
  predicate IsLineTerminator(c: char) { c in "\n\r\U{2028}\U{2029}" }

  predicate IsDigit(c: char) { '0' <= c <= '9' }

  /** How many leading characters are white space. */
  function LeadingSpaces(s: string): (n: nat)
    ensures n <= |s| && (n < |s| ==> !IsSpace(s[n]))
  {
    if s != [] && IsSpace(s[0]) then 1 + LeadingSpaces(s[1..]) else 0
  }

  /** How many leading characters equal `c`. */
  function LeadingRun(s: string, c: char): (n: nat)
    ensures n <= |s|
  {
    if s != [] && s[0] == c then 1 + LeadingRun(s[1..], c) else 0
  }

  function LeadingDigits(s: string): (n: nat)
    ensures n <= |s|
  {
    if s != [] && IsDigit(s[0]) then 1 + LeadingDigits(s[1..]) else 0
  }

  function Occurrences(s: string, c: char): nat {
    if s == [] then 0 else (if s[0] == c then 1 else 0) + Occurrences(s[1..], c)
  }

  function TrimStart(s: string): string { s[LeadingSpaces(s)..] }

  function TrimEnd(s: string): (t: string)
    ensures |t| <= |s| && t == s[..|t|]
    ensures t != [] ==> !IsSpace(t[|t| - 1])
  {
    if s != [] && IsSpace(s[|s| - 1]) then TrimEnd(s[..|s| - 1]) else s
  }

  function Trim(s: string): string { TrimEnd(TrimStart(s)) }

  lemma {:induction false} TrimEndKeepsHead(s: string)
    requires s != [] && !IsSpace(s[0])
    ensures TrimEnd(s) != [] && TrimEnd(s)[0] == s[0]
    decreases |s|
  {
    if IsSpace(s[|s| - 1]) {
      TrimEndKeepsHead(s[..|s| - 1]);
    }
  }

  /** A trimmed line starts at its first character, and trimming it again changes nothing. */
  lemma TrimIsIdempotent(s: string)
    ensures LeadingSpaces(Trim(s)) == 0 && Trim(Trim(s)) == Trim(s)
  {
    if TrimStart(s) != [] {
      TrimEndKeepsHead(TrimStart(s));
    }
  }

  // ----- line tests

  predicate IsBlank(line: string) { Trim(line) == [] }

  /** Up to three columns of indentation, which every block-opening pattern allows. */
  predicate NotDeeplyIndented(line: string) { LeadingSpaces(line) <= 3 }

  datatype Heading = Heading(level: nat, text: string)

  /** One to six `#`, white space, then text that stays on one line. */
  function HeadingOf(line: string): (h: Option<Heading>)
    ensures h.Some? ==> 1 <= h.value.level <= 6
  {
    var core := Trim(line);
    var level := LeadingRun(core, '#');
    if NotDeeplyIndented(line) && 1 <= level <= 6 && level < |core| && IsSpace(core[level])
       && !HasLineTerminator(TrimStart(core[level..]))
    then Some(Heading(level, TrimStart(core[level..])))
    else None
  }

  predicate HasLineTerminator(s: string) { exists k :: 0 <= k < |s| && IsLineTerminator(s[k]) }

  /** The opening run of three or more backticks or tildes. */
  function FenceOf(line: string): (marker: Option<string>)
    ensures marker.Some? ==> marker.value != [] && marker.value[0] in "`~"
  {
    var core := TrimStart(line);
    if NotDeeplyIndented(line) && core != [] && core[0] in "`~" && LeadingRun(core, core[0]) >= 3
    then Some(core[..LeadingRun(core, core[0])])
    else None
  }

  /** Three or more of one of `-`, `*`, `_`, with nothing but white space between. */
  predicate IsRule(line: string) {
    var core := Trim(line);
    && NotDeeplyIndented(line) && core != [] && core[0] in "-*_"
    && (forall k :: 0 <= k < |core| ==> core[k] == core[0] || IsSpace(core[k]))
    && Occurrences(core, core[0]) >= 3
  }

  /** A bullet or a number of at most nine digits, followed by white space. */
  predicate IsListItem(line: string) {
    var core := TrimStart(line);
    var n := LeadingDigits(core);
    && NotDeeplyIndented(line)
    && (|| (|core| > 1 && core[0] in "-*+" && IsSpace(core[1]))
        || (1 <= n <= 9 && |core| > n + 1 && core[n] in ".)" && IsSpace(core[n + 1])))
  }

  predicate IsTableDelimiter(line: string) {
    var core := Trim(line);
    '|' in line && '-' in line && core != [] && forall k :: 0 <= k < |core| ==> core[k] in "|:-" || IsSpace(core[k])
  }

  predicate IsQuote(line: string) { ">" <= TrimStart(line) }

  predicate IsIndented(line: string) { |line| >= 2 && IsSpace(line[0]) && IsSpace(line[1]) }

  predicate BreaksBlock(line: string) { HeadingOf(line).Some? || FenceOf(line).Some? || IsRule(line) }

  /** Trimming keeps a heading what it was, and never turns it into a fence or a blank. */
  lemma TrimKeepsHeading(line: string)
    requires HeadingOf(line).Some?
    ensures HeadingOf(Trim(line)) == HeadingOf(line)
    ensures FenceOf(Trim(line)).None? && !IsBlank(Trim(line))
  {
    TrimIsIdempotent(line);
    assert Trim(line)[0] == '#';
  }

  /** Trimming keeps a rule a rule, and never turns it into a fence, a heading or a blank. */
  lemma TrimKeepsRule(line: string)
    requires IsRule(line)
    ensures IsRule(Trim(line)) && FenceOf(Trim(line)).None? && HeadingOf(Trim(line)).None?
    ensures !IsBlank(Trim(line))
  {
    TrimIsIdempotent(line);
    assert Trim(line)[0] in "-*_";
  }

  lemma BlankLineFacts()
    ensures IsBlank("") && !IsTableDelimiter("")
  {
  }

  // ----- lines of a document

  /** Every carriage return directly before a line feed dropped. */
  function NormalizeNewlines(text: string): string {
    if |text| >= 2 && text[0] == '\r' && text[1] == '\n' then ['\n'] + NormalizeNewlines(text[2..])
    else if text == [] then []
    else [text[0]] + NormalizeNewlines(text[1..])
  }

  /** The pieces between line feeds: one more than there are line feeds. */
  function SplitFeeds(text: string): (lines: seq<string>)
    ensures lines != []
  {
    if text == [] then [[]]
    else
      var rest := SplitFeeds(text[1..]);
      if text[0] == '\n' then [[]] + rest else [[text[0]] + rest[0]] + rest[1..]
  }

  function JoinLines(lines: seq<string>): string
    requires lines != []
  {
    if |lines| == 1 then lines[0] else lines[0] + ['\n'] + JoinLines(lines[1..])
  }

  ghost predicate FeedFree(lines: seq<string>) {
    forall k :: 0 <= k < |lines| ==> '\n' !in lines[k]
  }

  /** Splitting at line feeds loses nothing: joining restores the text, and no piece holds a feed. */
  lemma {:induction false} SplitThenJoin(text: string)
    ensures JoinLines(SplitFeeds(text)) == text && FeedFree(SplitFeeds(text))
  {
    if text != [] {
      SplitThenJoin(text[1..]);
      var rest := SplitFeeds(text[1..]);
      if text[0] == '\n' {
        assert ([[]] + rest)[1..] == rest;
      } else if |rest| > 1 {
        assert ([[text[0]] + rest[0]] + rest[1..])[1..] == rest[1..];
      }
    }
  }

  /** Joined texts are equal only when their lines are: comparing texts compares line lists. */
  lemma {:induction false} JoinIsInjective(a: seq<string>, b: seq<string>)
    requires a != [] && b != [] && FeedFree(a) && FeedFree(b)
    ensures JoinLines(a) == JoinLines(b) <==> a == b
  {
    if JoinLines(a) == JoinLines(b) {
      JoinedHead(a);
      JoinedHead(b);
      if |a| > 1 && |b| > 1 {
        FirstFeed(a[0], b[0], JoinLines(a[1..]), JoinLines(b[1..]));
        JoinIsInjective(a[1..], b[1..]);
        assert a == [a[0]] + a[1..] && b == [b[0]] + b[1..];
      }
    }
  }

  lemma JoinThenSplit(lines: seq<string>)
    requires lines != [] && FeedFree(lines)
    ensures SplitFeeds(JoinLines(lines)) == lines
  {
    SplitThenJoin(JoinLines(lines));
    JoinIsInjective(SplitFeeds(JoinLines(lines)), lines);
  }

  lemma JoinedHead(a: seq<string>)
    requires a != [] && FeedFree(a)
    ensures '\n' in JoinLines(a) <==> |a| > 1
  {
    if |a| > 1 {
      assert JoinLines(a)[|a[0]|] == '\n';
    }
  }

  lemma FirstFeed(x: string, y: string, s: string, t: string)
    requires '\n' !in x && '\n' !in y && x + ['\n'] + s == y + ['\n'] + t
    ensures x == y && s == t
  {
    var whole, other := x + ['\n'] + s, y + ['\n'] + t;
    assert whole[|x|] == '\n' && other[|y|] == '\n';
    assert forall k :: 0 <= k < |x| ==> whole[k] == x[k] != '\n';
    assert forall k :: 0 <= k < |y| ==> other[k] == y[k] != '\n';
    assert whole[..|x|] == x && other[..|y|] == y;
    assert whole[|x| + 1..] == s && other[|y| + 1..] == t;
  }
}
