/**
 Generating a document (`backend/workflow.py`): the streaming loop that buffers its text into delta commits.
 */
module Generation {
  import opened Wrappers
  import opened RunTypes
  import opened RunManager
  import opened Workflow

  /** One event of a provider's stream, and the clock in milliseconds when it is handled. */
  datatype Chunk = Chunk(delta: Text, usage: Option<Usage>, now: nat)

  const FLUSH_LENGTH := 128

  const FLUSH_MILLIS := 50

  function Joined(parts: seq<Text>): Text {
    if parts == [] then [] else Joined(parts[..|parts| - 1]) + parts[|parts| - 1]
  }

  function Streamed(chunks: seq<Chunk>): Text {
    if chunks == [] then [] else Streamed(chunks[..|chunks| - 1]) + chunks[|chunks| - 1].delta
  }

  /** `usage` is what the last chunk that reports any reports. */
  ghost predicate LastReported(chunks: seq<Chunk>, usage: Option<Usage>) {
    if usage.None? then forall k :: 0 <= k < |chunks| ==> chunks[k].usage.None?
    else
      exists k :: 0 <= k < |chunks| && chunks[k].usage == usage
        && forall later :: k < later < |chunks| ==> chunks[later].usage.None?
  }

  lemma JoinedGrows(parts: seq<Text>, part: Text)
    ensures Joined(parts + [part]) == Joined(parts) + part
  {
    assert (parts + [part])[..|parts|] == parts;
  }

  // ----- when text is flushed

  /** The text of the chunks from `lo` up to `hi`. */
  function TextOf(chunks: seq<Chunk>, lo: nat, hi: nat): Text
    requires lo <= hi <= |chunks|
  {
    Streamed(chunks[lo..hi])
  }

  /**
   After `hi` chunks there is text since `lo` to flush, and it is long enough, 128 code units, or old enough,
   50 milliseconds since `since`.
   */
  predicate Due(chunks: seq<Chunk>, lo: nat, since: nat, hi: nat)
    requires lo < hi <= |chunks|
  {
    TextOf(chunks, lo, hi) != [] && (|TextOf(chunks, lo, hi)| >= 128 || chunks[hi - 1].now >= since + 50)
  }

  /** How many chunks were read before the `k`th flush's text. */
  function ReadBefore(cuts: seq<nat>, k: nat): nat
    requires k <= |cuts|
  {
    if k == 0 then 0 else cuts[k - 1]
  }

  /** When the flush before the `k`th was made. */
  function FlushedLast(chunks: seq<Chunk>, start: nat, cuts: seq<nat>, k: nat): nat
    requires k <= |cuts| && ReadBefore(cuts, k) <= |chunks|
  {
    if ReadBefore(cuts, k) == 0 then start else chunks[ReadBefore(cuts, k) - 1].now
  }

  /** The `k`th flush holds the text since the one before, and was made as soon as one was due. */
  ghost predicate FlushFits(chunks: seq<Chunk>, start: nat, flushed: seq<Text>, cuts: seq<nat>, k: nat)
    requires k < |cuts| == |flushed|
  {
    && ReadBefore(cuts, k) < cuts[k] <= |chunks|
    && flushed[k] == TextOf(chunks, ReadBefore(cuts, k), cuts[k]) != []
    && forall hi :: ReadBefore(cuts, k) < hi < cuts[k] ==>
      !Due(chunks, ReadBefore(cuts, k), FlushedLast(chunks, start, cuts, k), hi)
  }

  ghost predicate FlushIsDue(chunks: seq<Chunk>, start: nat, cuts: seq<nat>, k: nat)
    requires k < |cuts|
  {
    && ReadBefore(cuts, k) < cuts[k] <= |chunks|
    && Due(chunks, ReadBefore(cuts, k), FlushedLast(chunks, start, cuts, k), cuts[k])
  }

  /** Every flush fits, all but a last one at the end of the stream were due, and no text is left over. */
  ghost predicate FlushesInTime(chunks: seq<Chunk>, start: nat, flushed: seq<Text>, cuts: seq<nat>) {
    && |cuts| == |flushed|
    && (forall k :: 0 <= k < |cuts| ==> FlushFits(chunks, start, flushed, cuts, k))
    && (forall k :: 0 <= k < |cuts| ==>
          FlushIsDue(chunks, start, cuts, k) || (k == |cuts| - 1 && cuts[k] == |chunks|))
    && ReadBefore(cuts, |cuts|) <= |chunks| && TextOf(chunks, ReadBefore(cuts, |cuts|), |chunks|) == []
  }

  /** The flushes made while the stream is read, up to `hi` chunks of it. */
  ghost predicate FlushedSoFar(chunks: seq<Chunk>, start: nat, flushed: seq<Text>, cuts: seq<nat>, hi: nat) {
    && |cuts| == |flushed| && hi <= |chunks| && ReadBefore(cuts, |cuts|) <= hi
    && (forall k :: 0 <= k < |cuts| ==>
          FlushFits(chunks, start, flushed, cuts, k) && FlushIsDue(chunks, start, cuts, k))
    && (forall c :: ReadBefore(cuts, |cuts|) < c <= hi ==>
          !Due(chunks, ReadBefore(cuts, |cuts|), FlushedLast(chunks, start, cuts, |cuts|), c))
  }

  lemma OneMoreFlush(chunks: seq<Chunk>, start: nat, flushed: seq<Text>, cuts: seq<nat>, hi: nat, text: Text)
    requires FlushedSoFar(chunks, start, flushed, cuts, hi) && hi < |chunks|
    requires text == TextOf(chunks, ReadBefore(cuts, |cuts|), hi + 1)
    requires Due(chunks, ReadBefore(cuts, |cuts|), FlushedLast(chunks, start, cuts, |cuts|), hi + 1)
    ensures FlushedSoFar(chunks, start, flushed + [text], cuts + [hi + 1], hi + 1)
  {
    hide Due, TextOf;
    var longer, texts := cuts + [hi + 1], flushed + [text];
    forall k | 0 <= k < |longer|
      ensures FlushFits(chunks, start, texts, longer, k) && FlushIsDue(chunks, start, longer, k)
    {
      assert ReadBefore(longer, k) == ReadBefore(cuts, k);
      if k < |cuts| {
        assert FlushFits(chunks, start, flushed, cuts, k) && FlushIsDue(chunks, start, cuts, k);
      } else {
        DueIsText(chunks, ReadBefore(cuts, k), FlushedLast(chunks, start, cuts, k), hi + 1);
      }
    }
  }

  lemma DueIsText(chunks: seq<Chunk>, lo: nat, since: nat, hi: nat)
    requires lo < hi <= |chunks| && Due(chunks, lo, since, hi)
    ensures TextOf(chunks, lo, hi) != []
  {
  }

  /** At the end of the stream what is left is flushed, if anything is. */
  lemma LastFlush(chunks: seq<Chunk>, start: nat, flushed: seq<Text>, cuts: seq<nat>, text: Text)
    requires FlushedSoFar(chunks, start, flushed, cuts, |chunks|)
    requires text == TextOf(chunks, ReadBefore(cuts, |cuts|), |chunks|)
    ensures text == [] ==> FlushesInTime(chunks, start, flushed, cuts)
    ensures text != [] ==> FlushesInTime(chunks, start, flushed + [text], cuts + [|chunks|])
  {
    hide Due, TextOf;
    NoChunksNoText(chunks, |chunks|);
    if text != [] {
      var longer, texts := cuts + [|chunks|], flushed + [text];
      forall k | 0 <= k < |longer|
        ensures FlushFits(chunks, start, texts, longer, k)
        ensures k < |cuts| ==> FlushIsDue(chunks, start, longer, k)
      {
        assert ReadBefore(longer, k) == ReadBefore(cuts, k);
        if k < |cuts| {
          assert FlushFits(chunks, start, flushed, cuts, k) && FlushIsDue(chunks, start, cuts, k);
        } else {
          assert FlushedLast(chunks, start, longer, k) == FlushedLast(chunks, start, cuts, k);
        }
      }
    }
  }

  lemma NoChunksNoText(chunks: seq<Chunk>, n: nat)
    requires n <= |chunks|
    ensures TextOf(chunks, n, n) == []
  {
  }

  lemma NothingFlushed(chunks: seq<Chunk>, start: nat)
    ensures FlushedSoFar(chunks, start, [], [], 0)
  {
  }

  lemma JoinedNothing()
    ensures Joined([]) == []
  {
  }

  /** One more chunk read: either a flush is due, or nothing is to be done yet. */
  lemma DueNext(chunks: seq<Chunk>, start: nat, flushed: seq<Text>, cuts: seq<nat>, i: nat)
    requires FlushedSoFar(chunks, start, flushed, cuts, i) && i < |chunks|
    ensures var lo, since := ReadBefore(cuts, |cuts|), FlushedLast(chunks, start, cuts, |cuts|);
      && (Due(chunks, lo, since, i + 1) <==>
            var text := TextOf(chunks, lo, i + 1);
            text != [] && (|text| >= FLUSH_LENGTH || chunks[i].now >= since + FLUSH_MILLIS))
      && (!Due(chunks, lo, since, i + 1) ==> FlushedSoFar(chunks, start, flushed, cuts, i + 1))
  {
    hide TextOf, FlushFits, FlushIsDue;
  }

  lemma NothingReported()
    ensures LastReported([], None)
  {
  }

  lemma ReportedNext(chunks: seq<Chunk>, event: Chunk, usage: Option<Usage>)
    requires LastReported(chunks, usage)
    ensures LastReported(chunks + [event], if event.usage.Some? then event.usage else usage)
  {
    var longer := chunks + [event];
    assert longer[|chunks|] == event;
    assert forall k :: 0 <= k < |chunks| ==> longer[k] == chunks[k];
    if event.usage.None? && usage.Some? {
      var k :| 0 <= k < |chunks| && chunks[k].usage == usage
        && forall later :: k < later < |chunks| ==> chunks[later].usage.None?;
      assert longer[k].usage == usage;
    }
  }

  lemma TextGrows(chunks: seq<Chunk>, lo: nat, hi: nat)
    requires lo <= hi < |chunks|
    ensures TextOf(chunks, lo, hi + 1) == TextOf(chunks, lo, hi) + chunks[hi].delta
  {
    assert chunks[lo..hi + 1][..hi - lo] == chunks[lo..hi];
  }

  /**
   The streaming loop of one attempt.  `flushed` are the texts of its delta commits: every character the
   provider sent is in exactly one of them, in order, and no commit is empty.  `cuts` says after which chunk
   each was made: as soon as 128 code units or 50 milliseconds have gathered, and at the end.
   */
  method StreamGeneration(chunks: seq<Chunk>, start: nat)
    returns (content: Text, flushed: seq<Text>, usage: Option<Usage>, ghost cuts: seq<nat>)
    ensures content == Streamed(chunks) == Joined(flushed)
    ensures forall k :: 0 <= k < |flushed| ==> flushed[k] != []
    ensures LastReported(chunks, usage)
    ensures |flushed| <= |chunks|
    ensures FlushesInTime(chunks, start, flushed, cuts)
  {
    hide TextOf, Due, FlushedSoFar, FlushesInTime, LastReported, Joined;
    JoinedNothing();
    content, flushed, usage, cuts := [], [], None, [];
    var buffer: Text := [];
    var lastFlush := start;
    NoChunksNoText(chunks, 0);
    NothingReported();
    NothingFlushed(chunks, start);
    for i := 0 to |chunks|
      invariant content == Streamed(chunks[..i]) == Joined(flushed) + buffer
      invariant forall k :: 0 <= k < |flushed| ==> flushed[k] != []
      invariant LastReported(chunks[..i], usage)
      invariant |flushed| + (if buffer == [] then 0 else 1) <= i
      invariant ReadBefore(cuts, |cuts|) <= i && FlushedSoFar(chunks, start, flushed, cuts, i)
      invariant lastFlush == FlushedLast(chunks, start, cuts, |cuts|)
      invariant buffer == TextOf(chunks, ReadBefore(cuts, |cuts|), i)
    {
      var event := chunks[i];
      assert chunks[..i + 1][..i] == chunks[..i];
      TextGrows(chunks, ReadBefore(cuts, |cuts|), i);
      DueNext(chunks, start, flushed, cuts, i);
      if event.delta != [] {
        content := content + event.delta;
        buffer := buffer + event.delta;
      }
      if buffer != [] && (|buffer| >= FLUSH_LENGTH || event.now >= lastFlush + FLUSH_MILLIS) {
        JoinedGrows(flushed, buffer);
        OneMoreFlush(chunks, start, flushed, cuts, i, buffer);
        flushed, cuts := flushed + [buffer], cuts + [i + 1];
        buffer := [];
        lastFlush := event.now;
        NoChunksNoText(chunks, i + 1);
        assert buffer + [] == buffer;
      }
      ReportedNext(chunks[..i], event, usage);
      assert chunks[..i + 1] == chunks[..i] + [event];
      if event.usage.Some? {
        usage := event.usage;
      }
    }
    assert chunks[..|chunks|] == chunks;
    LastFlush(chunks, start, flushed, cuts, buffer);
    if buffer != [] {
      JoinedGrows(flushed, buffer);
      flushed, cuts := flushed + [buffer], cuts + [|chunks|];
    }
  }

  // ----- the protocol's steps

  /** The workflow's steps on a row of inputs, with nothing in between. */
  function Works(s: State, inputs: seq<Input>): Option<State> {
    if inputs == [] then Some(s)
    else
      var before := Works(s, inputs[..|inputs| - 1]);
      if before.None? then None else Next(before.value, Work(inputs[|inputs| - 1]))
  }

  lemma WorksOnce(s: State, inputs: seq<Input>, input: Input)
    ensures Works(s, inputs + [input])
        == if Works(s, inputs).None? then None else Next(Works(s, inputs).value, Work(input))
  {
    assert (inputs + [input])[..|inputs|] == inputs;
  }

  function Deltas(flushed: seq<Text>): (inputs: seq<Input>)
    ensures |inputs| == |flushed| && forall k :: 0 <= k < |flushed| ==> inputs[k] == Delta(flushed[k])
  {
    seq(|flushed|, k requires 0 <= k < |flushed| => Delta(flushed[k]))
  }

  /** Unless a cancel is seen, the snapshot ends up holding the attempt's whole text, one event per commit. */
  lemma {:induction false} FlushesSpellTheText(s: State, flushed: seq<Text>)
    requires s.pc.GenStream? && !s.run.cancelSignal && s.run.snapshot.docs.currentPrd == []
    requires forall k :: 0 <= k < |flushed| ==> flushed[k] != []
    ensures var after := Works(s, Deltas(flushed));
      && after.Some? && after.value.pc == s.pc && !after.value.run.cancelSignal
      && after.value.run.snapshot.docs == s.run.snapshot.docs.(currentPrd := Joined(flushed))
      && |after.value.run.log| == |s.run.log| + |flushed|
  {
    if flushed != [] {
      var n := |flushed| - 1;
      FlushesSpellTheText(s, flushed[..n]);
      WorksOnce(s, Deltas(flushed[..n]), Delta(flushed[n]));
      assert Deltas(flushed) == Deltas(flushed[..n]) + [Delta(flushed[n])];
    }
  }

  // ----- the second attempt

  /** What an attempt that broke off still has to record. */
  function Settling(spent: Option<Usage>): seq<Input> { if spent.Some? then [Go, Go] else [Go] }

  /** The timing of a failed attempt is recorded, and its usage when it reported one. */
  ghost predicate FailureRecorded(s: State, s': State, g: GenLocals, attempt: nat, spent: Option<Usage>) {
    var used := if spent.Some? then spent.value else NO_USAGE;
    var before, after := s.run.snapshot, s'.run.snapshot;
    && after.spending.timings == before.spending.timings + [Timing(Generator, g.iteration, attempt, false, used)]
    && after.spending.byNode.Get(Generator) == AddUsage(before.spending.byNode.Get(Generator), used)
    && after.docs == before.docs && after.status == before.status && s'.streams == s.streams
  }

  lemma FailureIsRecorded(s: State, g: GenLocals, attempt: nat, spent: Option<Usage>)
    requires s.pc == GenStream(g, attempt)
    ensures var settled := Works(s, [StreamFails(true, spent)] + Settling(spent));
      && settled.Some? && FailureRecorded(s, settled.value, g, attempt, spent)
      && settled.value.pc == (if attempt >= 2 then Ending(Faulted) else GenBegin(g, attempt + 1))
  {
    hide FinishStep, EntryStep, JoinStep, AggregatorStep, RouteStep, ParkStep, PlanStep, CloseStep, FailureRecorded,
      RecordTiming, RecordUsage;
    var failing := StreamFails(true, spent);
    WorksOnce(s, [], failing);
    assert Works(s, []) == Some(s) && [] + [failing] == [failing];
    WorksOnce(s, [failing], Go);
    var failed := Works(s, [failing]);
    assert failed == Some(s.(pc := GenFailTiming(g, attempt, spent)));
    TimingIsRecorded(failed.value, g, attempt, spent);
    if spent.Some? {
      WorksOnce(s, [failing, Go], Go);
      assert [failing, Go] + [Go] == [failing] + Settling(spent);
      var timed := Next(failed.value, Work(Go)).value;
      assert timed.pc == GenFailUsage(g, attempt, spent.value);
      UsageIsRecorded(s, timed, g, attempt, spent.value);
    } else {
      assert [failing] + [Go] == [failing] + Settling(spent);
      NothingToRecord(s, Next(failed.value, Work(Go)).value, g, attempt);
    }
  }

  lemma TimingIsRecorded(s: State, g: GenLocals, attempt: nat, spent: Option<Usage>)
    requires s.pc == GenFailTiming(g, attempt, spent)
    ensures var used := if spent.Some? then spent.value else NO_USAGE;
      var timed := Next(s, Work(Go));
      && timed.Some? && timed.value.streams == s.streams
      && timed.value.run == RecordTiming(s.run, Timing(Generator, g.iteration, attempt, false, used))
      && timed.value.pc
          == (if spent.Some? then GenFailUsage(g, attempt, spent.value)
              else if attempt >= 2 then Ending(Faulted) else GenBegin(g, attempt + 1))
  {
    hide RecordTiming;
  }

  lemma UsageIsRecorded(s: State, timed: State, g: GenLocals, attempt: nat, used: Usage)
    requires timed.pc == GenFailUsage(g, attempt, used) && timed.streams == s.streams
    requires timed.run == RecordTiming(s.run, Timing(Generator, g.iteration, attempt, false, used))
    ensures var settled := Next(timed, Work(Go));
      && settled.Some? && FailureRecorded(s, settled.value, g, attempt, Some(used))
      && settled.value.pc == (if attempt >= 2 then Ending(Faulted) else GenBegin(g, attempt + 1))
  {
  }

  lemma NothingToRecord(s: State, timed: State, g: GenLocals, attempt: nat)
    requires timed.run == RecordTiming(s.run, Timing(Generator, g.iteration, attempt, false, NO_USAGE))
    requires timed.streams == s.streams
    ensures FailureRecorded(s, timed, g, attempt, None)
  {
  }

  /**
   The retry.  When the first attempt breaks off with an error worth a retry, its timing and any usage are
   recorded and a second stream is opened for the same document, from an empty text, announced to clients.
   */
  lemma FirstFailureIsRetried(s: State, g: GenLocals, spent: Option<Usage>)
    requires s.pc == GenStream(g, 1)
    ensures var settled := Works(s, [StreamFails(true, spent)] + Settling(spent));
      var again := Works(s, [StreamFails(true, spent)] + Settling(spent) + [Go]);
      && settled.Some? && FailureRecorded(s, settled.value, g, 1, spent)
      && again.Some? && again.value.pc == GenStream(g, 2) && again.value.streams == s.streams + 1
      && again.value.run.snapshot.docs == s.run.snapshot.docs.(currentPrd := [], currentPrdAttempt := 2)
      && again.value.run.snapshot.spending == settled.value.run.snapshot.spending
      && |again.value.run.log| == |settled.value.run.log| + 1
      && again.value.run.log[|settled.value.run.log|].payload == PrdStreamReset(g.iteration, 2)
  {
    hide StreamStep, FinishStep, Works;
    FailureIsRecorded(s, g, 1, spent);
    WorksOnce(s, [StreamFails(true, spent)] + Settling(spent), Go);
  }

  /** A second failure, or one not worth a retry, ends the workflow as faulted. */
  lemma SecondFailureIsFinal(s: State, g: GenLocals, attempt: nat, spent: Option<Usage>)
    requires s.pc == GenStream(g, attempt)
    ensures attempt >= 2 ==>
      var settled := Works(s, [StreamFails(true, spent)] + Settling(spent));
      settled.Some? && FailureRecorded(s, settled.value, g, attempt, spent) && settled.value.pc == Ending(Faulted)
    ensures Next(s, Work(StreamFails(false, spent))) == Some(s.(pc := Ending(Faulted)))
  {
    hide Works;
    FailureIsRecorded(s, g, attempt, spent);
  }
}
