/**
 The block splitter's round trip over texts (`splitBlocks` in `src/lib/readingDiff.ts`): rejoining the
 blocks' texts with one blank line and splitting the result again.
 */
module TextRoundTrip {
  import opened Wrappers
  import opened Markdown
  import opened BlockSplitter

  /** The texts of the blocks, one blank line between them. */
  function RejoinText(blocks: seq<DocBlock>): string {
    if blocks == [] then ""
    else if |blocks| == 1 then blocks[0].Text()
    else blocks[0].Text() + "\n\n" + RejoinText(blocks[1..])
  }

  // ----- the text of rejoined blocks

  lemma {:induction false} JoinConcat(x: seq<string>, y: seq<string>)
    requires x != [] && y != []
    ensures JoinLines(x + y) == JoinLines(x) + ['\n'] + JoinLines(y)
  {
    if |x| == 1 {
      assert (x + y)[1..] == y;
    } else {
      JoinConcat(x[1..], y);
      assert (x + y)[1..] == x[1..] + y;
      Regroup(x[0] + ['\n'], JoinLines(x[1..]), ['\n'] + JoinLines(y));
    }
  }

  lemma Regroup(x: string, y: string, z: string)
    ensures x + (y + z) == x + y + z
  {
  }

  ghost predicate HaveLines(blocks: seq<DocBlock>) { forall k :: 0 <= k < |blocks| ==> blocks[k].lines != [] }

  lemma {:induction false} RejoinedText(blocks: seq<DocBlock>)
    requires blocks != [] && HaveLines(blocks)
    ensures Rejoin(blocks) != [] && RejoinText(blocks) == JoinLines(Rejoin(blocks))
  {
    var lines := blocks[0].lines;
    if |blocks| == 1 {
      assert lines + [] == lines;
    } else {
      RejoinedText(blocks[1..]);
      var rest := Rejoin(blocks[1..]);
      JoinConcat(lines, [""] + rest);
      assert ([""] + rest)[1..] == rest;
      assert Rejoin(blocks) == lines + ([""] + rest);
      assert JoinLines([""] + rest) == ['\n'] + JoinLines(rest);
      assert JoinLines(lines) + "\n\n" + JoinLines(rest) == JoinLines(lines) + ['\n'] + (['\n'] + JoinLines(rest));
    }
  }

  // ----- what the second split sees

  /** A line without the carriage return it ends in. */
  function DropReturn(line: string): string { if EndsInReturn(line) then line[..|line| - 1] else line }

  predicate EndsInReturn(line: string) { line != [] && line[|line| - 1] == '\r' }

  /** Every line but the last loses a final carriage return: a line feed comes right after it. */
  function DropReturns(lines: seq<string>): (out: seq<string>)
    ensures |out| == |lines|
  {
    if |lines| <= 1 then lines else [DropReturn(lines[0])] + DropReturns(lines[1..])
  }

  /** A character that is not the start of a line end stays. */
  lemma NormalizeChar(c: char, rest: string)
    requires c == '\r' ==> rest == [] || rest[0] != '\n'
    ensures NormalizeNewlines([c] + rest) == [c] + NormalizeNewlines(rest)
  {
    assert ([c] + rest)[1..] == rest;
  }

  lemma NormalizeFeed(rest: string)
    ensures NormalizeNewlines(['\n'] + rest) == ['\n'] + NormalizeNewlines(rest)
    ensures NormalizeNewlines(['\r'] + (['\n'] + rest)) == ['\n'] + NormalizeNewlines(rest)
  {
    NormalizeChar('\n', rest);
    assert (['\r'] + (['\n'] + rest))[2..] == rest;
  }

  lemma {:induction false} NormalizeLine(line: string, rest: string)
    requires '\n' !in line
    ensures NormalizeNewlines(line + ['\n'] + rest) == DropReturn(line) + ['\n'] + NormalizeNewlines(rest)
    decreases |line|
  {
    hide NormalizeNewlines;
    if line == [] {
      assert line + ['\n'] + rest == ['\n'] + rest;
      NormalizeFeed(rest);
    } else if line == ['\r'] {
      assert line + ['\n'] + rest == ['\r'] + (['\n'] + rest);
      NormalizeFeed(rest);
    } else {
      var tail := line[1..] + ['\n'] + rest;
      assert line + ['\n'] + rest == [line[0]] + tail;
      NormalizeChar(line[0], tail);
      NormalizeLine(line[1..], rest);
      assert DropReturn(line) == [line[0]] + DropReturn(line[1..]);
    }
  }

  lemma {:induction false} NormalizeLast(line: string)
    requires '\n' !in line
    ensures NormalizeNewlines(line) == line
  {
    if line != [] {
      NormalizeLast(line[1..]);
    }
  }

  lemma {:induction false} NormalizeJoined(lines: seq<string>)
    requires lines != [] && FeedFree(lines)
    ensures FeedFree(DropReturns(lines)) && NormalizeNewlines(JoinLines(lines)) == JoinLines(DropReturns(lines))
  {
    if |lines| == 1 {
      NormalizeLast(lines[0]);
    } else {
      NormalizeJoined(lines[1..]);
      NormalizeLine(lines[0], JoinLines(lines[1..]));
      assert ([DropReturn(lines[0])] + DropReturns(lines[1..]))[1..] == DropReturns(lines[1..]);
    }
  }

  // ----- sizes

  function Size(lines: seq<string>): nat { if lines == [] then 0 else |lines[0]| + Size(lines[1..]) }

  lemma {:induction false} SizeConcat(x: seq<string>, y: seq<string>)
    ensures Size(x + y) == Size(x) + Size(y)
  {
    if x == [] {
      assert x + y == y;
    } else {
      SizeConcat(x[1..], y);
      assert (x + y)[1..] == x[1..] + y;
    }
  }

  /** No line but the last ends in a carriage return. */
  ghost predicate NoInnerReturn(lines: seq<string>) { forall k :: 0 <= k < |lines| - 1 ==> !EndsInReturn(lines[k]) }

  lemma {:induction false} DroppingShrinks(lines: seq<string>)
    ensures NoInnerReturn(lines) ==> DropReturns(lines) == lines
    ensures !NoInnerReturn(lines) ==> Size(DropReturns(lines)) < Size(lines)
    ensures Size(DropReturns(lines)) <= Size(lines)
  {
    if |lines| > 1 {
      DroppingShrinks(lines[1..]);
      assert NoInnerReturn(lines) <==> !EndsInReturn(lines[0]) && NoInnerReturn(lines[1..]) by {
        assert forall k :: 0 <= k < |lines| - 2 ==> lines[1..][k] == lines[k + 1];
        if NoInnerReturn(lines) {
        } else {
          var k :| 0 <= k < |lines| - 1 && EndsInReturn(lines[k]);
          assert k > 0 ==> EndsInReturn(lines[1..][k - 1]);
        }
      }
    }
  }

  lemma FirstBlockShrinks(lines: seq<string>)
    requires lines != []
    ensures FirstBlock(lines).lines != [] && Size(FirstBlock(lines).lines) <= Size(lines[..BlockLength(lines)])
    ensures FeedFree(lines) ==> FeedFree(FirstBlock(lines).lines)
  {
    hide FirstShape, BlockLength, Trim;
    TrimShrinks(lines[0]);
    var taken, made := lines[..BlockLength(lines)], FirstBlock(lines).lines;
    assert |made| == |taken| && made[0] in {taken[0], Trim(taken[0])} && made[1..] == taken[1..];
    assert forall k :: 1 <= k < |made| ==> made[k] == made[1..][k - 1] == lines[k];
  }

  lemma TrimShrinks(line: string)
    ensures |Trim(line)| <= |line| && ('\n' !in line ==> '\n' !in Trim(line))
  {
    hide TrimEnd, LeadingSpaces;
    var n, m := LeadingSpaces(line), |Trim(line)|;
    assert Trim(line) == line[n..][..m];
    assert forall k :: 0 <= k < m ==> Trim(line)[k] == line[n + k];
  }

  /** The rejoined lines are no longer than the document's, and each block has lines of its own. */
  lemma {:induction false} RejoiningShrinks(lines: seq<string>)
    ensures Size(Rejoin(Split(lines))) <= Size(lines) && HaveLines(Split(lines))
    ensures FeedFree(lines) ==> FeedFree(Rejoin(Split(lines)))
    decreases |lines|
  {
    hide FirstBlock, BlockLength, IsBlank;
    if lines == [] {
    } else if IsBlank(lines[0]) {
      RejoiningShrinks(lines[1..]);
    } else {
      var n := BlockLength(lines);
      var block, others := FirstBlock(lines), Split(lines[n..]);
      FirstBlockShrinks(lines);
      RejoiningShrinks(lines[n..]);
      RejoinFirst(block, others);
      var rest := if others == [] then [] else [""] + Rejoin(others);
      SizeConcat(block.lines, rest);
      SizeConcat(lines[..n], lines[n..]);
      assert lines[..n] + lines[n..] == lines;
      assert others != [] ==> ([""] + Rejoin(others))[1..] == Rejoin(others);
    }
  }

  // ----- the round trip

  lemma ResplitSees(blocks: seq<DocBlock>)
    requires HaveLines(blocks) && FeedFree(Rejoin(blocks))
    ensures BlocksOf(RejoinText(blocks)) == Split(DropReturns(Rejoin(blocks)))
  {
    hide IsBlank, BlockLength, FirstBlock;
    if blocks == [] {
      BlankLineFacts();
      assert SplitFeeds("") == [""];
    } else {
      RejoinedText(blocks);
      NormalizeJoined(Rejoin(blocks));
      JoinThenSplit(DropReturns(Rejoin(blocks)));
    }
  }

  /**
   The round trip over texts.  Splitting a document, rejoining the blocks' texts with one blank line and
   splitting again gives the same blocks if and only if no rejoined line but the last ends in a carriage
   return: in the joined text a line feed would follow it, and the pair reads as one line end.
   */
  lemma TextSplitsBack(text: string)
    ensures var blocks := BlocksOf(text);
      BlocksOf(RejoinText(blocks)) == blocks <==> NoInnerReturn(Rejoin(blocks))
  {
    hide Split, Rejoin, NormalizeNewlines, SplitFeeds, DropReturns, RejoinText, HaveLines;
    var lines := SplitFeeds(NormalizeNewlines(text));
    var blocks := Split(lines);
    var rejoined := Rejoin(blocks);
    SplitThenJoin(NormalizeNewlines(text));
    RejoiningShrinks(lines);
    ResplitSees(blocks);
    SplitRoundTrip(lines);
    DroppingShrinks(rejoined);
    RejoiningShrinks(DropReturns(rejoined));
  }

  // ----- a condition on the text itself

  predicate StartsAt(text: string, piece: string, k: nat) { k <= |text| && piece <= text[k..] }

  ghost predicate Contains(text: string, piece: string) { exists k: nat :: StartsAt(text, piece, k) }

  lemma ContainsFirst(text: string, piece: string)
    requires text != []
    ensures Contains(text, piece) <==> piece <= text || Contains(text[1..], piece)
  {
    assert text[0..] == text;
    if piece <= text {
      assert StartsAt(text, piece, 0);
    }
    if Contains(text[1..], piece) {
      var k: nat :| StartsAt(text[1..], piece, k);
      assert text[1..][k..] == text[k + 1..];
      assert StartsAt(text, piece, k + 1);
    }
    if Contains(text, piece) && !(piece <= text) {
      var k: nat :| StartsAt(text, piece, k);
      assert k > 0;
      assert text[1..][k - 1..] == text[k..];
      assert StartsAt(text[1..], piece, k - 1);
    }
  }

  lemma EmptyContainsNothing(piece: string)
    requires piece != []
    ensures !Contains([], piece)
  {
  }

  lemma PairAtStart(text: string)
    ensures "\r\n" <= text <==> |text| >= 2 && text[0] == '\r' && text[1] == '\n'
  {
    assert "\r\n" <= text ==> text[..2] == "\r\n";
  }

  /** Only two carriage returns before a line feed leave one behind. */
  lemma {:induction false} NormalizedContains(text: string)
    requires !Contains(text, "\r\r\n")
    ensures !Contains(NormalizeNewlines(text), "\r\n")
    decreases |text|
  {
    hide Contains;
    EmptyContainsNothing("\r\n");
    if text != [] {
      ContainsFirst(text, "\r\r\n");
      var n := if |text| >= 2 && text[0] == '\r' && text[1] == '\n' then 2 else 1;
      if n == 2 {
        ContainsFirst(text[1..], "\r\r\n");
        assert text[1..][1..] == text[2..];
      }
      NormalizedContains(text[n..]);
      var rest, whole := NormalizeNewlines(text[n..]), NormalizeNewlines(text);
      ContainsFirst(whole, "\r\n");
      assert whole[1..] == rest;
      assert n == 1 && text[0] == '\r' && rest != [] && rest[0] == '\n' ==> "\r\r\n" <= text;
      PairAtStart(whole);
    }
  }

  lemma {:induction false} LinesEndFree(text: string)
    requires !Contains(text, "\r\n")
    ensures NoInnerReturn(SplitFeeds(text))
  {
    hide Contains;
    if text != [] {
      ContainsFirst(text, "\r\n");
      LinesEndFree(text[1..]);
      var rest := SplitFeeds(text[1..]);
      if text[0] != '\n' && |rest| > 1 && rest[0] == [] {
        assert text[1] == '\n';
        assert text[0] == '\r' ==> "\r\n" <= text;
      }
    }
  }

  lemma NoInnerReturnTail(lines: seq<string>, n: nat)
    requires NoInnerReturn(lines) && n <= |lines|
    ensures NoInnerReturn(lines[n..])
  {
  }

  lemma MadeEndsFree(lines: seq<string>, n: nat)
    requires NoInnerReturn(lines) && lines != [] && n == BlockLength(lines)
    ensures var block := FirstBlock(lines).lines;
      |block| == n && NoInnerReturn(block) && (n < |lines| ==> !EndsInReturn(block[n - 1]))
  {
    hide FirstShape, BlockLength, TrimStart, TrimEnd;
  }

  lemma {:induction false} RejoinedEndFree(lines: seq<string>)
    requires NoInnerReturn(lines)
    ensures NoInnerReturn(Rejoin(Split(lines)))
    decreases |lines|
  {
    hide FirstBlock, BlockLength, IsBlank;
    if lines == [] {
    } else if IsBlank(lines[0]) {
      NoInnerReturnTail(lines, 1);
      RejoinedEndFree(lines[1..]);
    } else {
      var n := BlockLength(lines);
      var block, others := FirstBlock(lines), Split(lines[n..]);
      MadeEndsFree(lines, n);
      NoInnerReturnTail(lines, n);
      RejoinedEndFree(lines[n..]);
      RejoinFirst(block, others);
      if others == [] {
        assert block.lines + [] == block.lines;
      } else {
        assert n < |lines|;
        var all := block.lines + ([""] + Rejoin(others));
        forall k | 0 <= k < |all| - 1 ensures !EndsInReturn(all[k]) {
          if k > n {
            assert all[k] == Rejoin(others)[k - n - 1];
          }
        }
      }
    }
  }

  /** A text without two carriage returns before a line feed always comes back. */
  lemma PlainTextSplitsBack(text: string)
    requires !Contains(text, "\r\r\n")
    ensures BlocksOf(RejoinText(BlocksOf(text))) == BlocksOf(text)
  {
    hide Split, Rejoin, NormalizeNewlines, SplitFeeds, RejoinText, NoInnerReturn, Contains;
    NormalizedContains(text);
    LinesEndFree(NormalizeNewlines(text));
    RejoinedEndFree(SplitFeeds(NormalizeNewlines(text)));
    TextSplitsBack(text);
  }

  /** A document whose line ends in a carriage return of its own does not come back. */
  lemma ReturnIsLost()
    ensures BlocksOf(RejoinText(BlocksOf("a\r\r\nb"))) != BlocksOf("a\r\r\nb")
  {
    ReturnStays();
    var lines := ["a\r", "b"];
    var blocks := BlocksOf("a\r\r\nb");
    assert Rejoin(blocks) == lines;
    assert EndsInReturn(lines[0]);
    TextSplitsBack("a\r\r\nb");
  }

  /** A line that opens with a letter opens a paragraph. */
  lemma LetterOpensProse(line: string)
    requires line != [] && 'a' <= line[0] <= 'z' && '|' !in line
    ensures !IsBlank(line) && !IsQuote(line) && !IsListItem(line) && !BreaksBlock(line)
    ensures forall next :: ShapeOf(line, next) == Prose(false)
  {
    hide TrimEnd, Occurrences, HasLineTerminator, IsTableDelimiter;
    assert !IsSpace(line[0]);
    assert LeadingSpaces(line) == 0 && TrimStart(line) == line;
    TrimEndKeepsHead(line);
    assert Trim(line)[0] == line[0];
    assert LeadingRun(Trim(line), '#') == 0 && LeadingDigits(line) == 0;
  }

  lemma ReturnStays()
    ensures BlocksOf("a\r\r\nb") == [DocBlock(ParagraphBlock, None, ["a\r", "b"])]
  {
    var text, lines := "a\r\r\nb", ["a\r", "b"];
    NormalizeLine("a\r\r", "b");
    NormalizeLast("b");
    assert text == "a\r\r" + ['\n'] + "b" && DropReturn("a\r\r") == "a\r";
    assert NormalizeNewlines(text) == JoinLines(lines);
    JoinThenSplit(lines);
    ProseSplits(lines);
  }

  lemma ProseSplits(lines: seq<string>)
    requires lines == ["a\r", "b"]
    ensures Split(lines) == [DocBlock(ParagraphBlock, None, lines)]
  {
    hide ShapeOf, IsBlank, IsQuote, IsListItem, BreaksBlock;
    LetterOpensProse(lines[0]);
    LetterOpensProse(lines[1]);
    assert FirstShape(lines) == Prose(false);
    assert lines[1..] == ["b"];
    assert Continues(Prose(false), "b") && Span(Prose(false), lines[1..]) == 1;
    assert BlockLength(lines) == 2 && lines[..2] == lines;
  }
}
