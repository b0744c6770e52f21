/**
 The event stores (`backend/event_store.py`): a bounded deque per run, and the SQLite store whose table
 is the log and whose deque is only a hot cache over it.

 One run's rows are kept in insertion order, which is proved to be ascending, so reading them
 `ORDER BY sequence` is reading them as they are.
 */
module EventStore {
  import opened Wrappers
  import opened RunTypes

  type RunId = nat

  datatype ReplayError = NotFound | Expired(oldest: nat)

  // ----- lists of events

  ghost predicate Ascending(events: seq<Event>) {
    forall i, j :: 0 <= i < j < |events| ==> events[i].sequence < events[j].sequence
  }

  /** The events after a cursor, in place. */
  function After(events: seq<Event>, cursor: nat): seq<Event> {
    if events == [] then []
    else (if events[0].sequence > cursor then [events[0]] else []) + After(events[1..], cursor)
  }

  /** The stored events: what is not streamed live only. */
  function Durable(events: seq<Event>): seq<Event> {
    if events == [] then []
    else Durable(events[..|events| - 1]) + (if Transient(events[|events| - 1]) then [] else [events[|events| - 1]])
  }

  /** The newest `size` events. */
  function Newest(events: seq<Event>, size: nat): seq<Event> {
    if |events| <= size then events else events[|events| - size..]
  }

  /** Appending to a deque of bounded length drops its oldest entry when it is full. */
  function Push(cache: seq<Event>, event: Event, size: nat): seq<Event> { Newest(cache + [event], size) }

  lemma {:induction false} AfterMembers(events: seq<Event>, cursor: nat)
    ensures forall e :: e in After(events, cursor) <==> e in events && e.sequence > cursor
  {
    if events != [] {
      AfterMembers(events[1..], cursor);
      assert forall e :: e in events <==> e == events[0] || e in events[1..];
    }
  }

  lemma {:induction false} AfterAscends(events: seq<Event>, cursor: nat)
    requires Ascending(events)
    ensures Ascending(After(events, cursor))
  {
    if events != [] {
      AfterAscends(events[1..], cursor);
      AfterMembers(events[1..], cursor);
      var rest := After(events[1..], cursor);
      forall k | 0 <= k < |rest| ensures events[0].sequence < rest[k].sequence {
        assert rest[k] in events[1..];
      }
    }
  }

  lemma AfterFacts(events: seq<Event>, cursor: nat)
    requires Ascending(events)
    ensures Ascending(After(events, cursor))
    ensures forall e :: e in After(events, cursor) <==> e in events && e.sequence > cursor
  {
    AfterMembers(events, cursor);
    AfterAscends(events, cursor);
  }

  /** The filter is a loop over the deque or the rows. */
  method Filter(events: seq<Event>, cursor: nat) returns (out: seq<Event>)
    ensures out == After(events, cursor)
  {
    out := [];
    assert events[0..] == events;
    for index := 0 to |events|
      invariant out + After(events[index..], cursor) == After(events, cursor)
    {
      assert events[index..][1..] == events[index + 1..];
      if events[index].sequence > cursor {
        out := out + [events[index]];
      }
    }
    assert out + [] == out;
  }

  // ----- the in-memory store, one run

  /** Numbered from one without a gap. */
  ghost predicate Dense(log: seq<Event>) { forall k :: 0 <= k < |log| ==> log[k].sequence == k + 1 }

  ghost predicate CacheOfLog(cache: seq<Event>, sequence: nat, log: seq<Event>, size: nat) {
    Dense(log) && sequence == |log| && cache == Newest(log, size)
  }

  /** `EventStore.replay`, on one run's deque. */
  function ReplayMemory(cache: seq<Event>, cursor: nat): Result<seq<Event>, ReplayError> {
    if cache != [] && cursor < cache[0].sequence - 1 then Failure(Expired(cache[0].sequence))
    else Success(After(cache, cursor))
  }

  lemma {:induction false} AfterDense(log: seq<Event>, k: nat, cursor: nat)
    requires Dense(log) && k <= |log| && k <= cursor
    ensures After(log[k..], cursor) == log[if cursor <= |log| then cursor else |log|..]
    decreases |log| - k
  {
    if k < |log| {
      assert log[k..][1..] == log[k + 1..];
      if k < cursor {
        AfterDense(log, k + 1, cursor);
      } else {
        AfterAll(log, k, cursor);
      }
    }
  }

  lemma {:induction false} AfterAll(log: seq<Event>, k: nat, cursor: nat)
    requires Dense(log) && cursor <= k <= |log|
    ensures After(log[k..], cursor) == log[k..]
    decreases |log| - k
  {
    if k < |log| {
      assert log[k..][1..] == log[k + 1..];
      AfterAll(log, k + 1, cursor);
    }
  }

  /**
   The in-memory store returns the exact suffix of the log, or says the range expired exactly when an
   event after the cursor was evicted.
   */
  lemma MemoryReplayIsExact(cache: seq<Event>, sequence: nat, log: seq<Event>, size: nat, cursor: nat)
    requires CacheOfLog(cache, sequence, log, size) && size > 0
    ensures var evicted := |log| - |cache|;
      ReplayMemory(cache, cursor) ==
        if cursor < evicted then Failure(Expired(evicted + 1))
        else Success(log[if cursor <= |log| then cursor else |log|..])
  {
    var evicted := |log| - |cache|;
    assert cache == log[evicted..];
    if cursor >= evicted {
      AfterDense(log, evicted, cursor);
    }
  }

  lemma PushKeepsCache(cache: seq<Event>, sequence: nat, log: seq<Event>, size: nat, event: Event)
    requires CacheOfLog(cache, sequence, log, size) && event.sequence == sequence + 1
    ensures CacheOfLog(Push(cache, event, size), sequence + 1, log + [event], size)
  {
  }

  class MemoryEventStore {
    const bufferSize: nat
    var events: map<RunId, seq<Event>>
    var sequences: map<RunId, nat>
    /** Everything ever appended, run by run. */
    ghost var logs: map<RunId, seq<Event>>

    ghost predicate Valid()
      reads this
    {
      && bufferSize > 0
      && events.Keys == sequences.Keys == logs.Keys
      && forall id :: id in events ==> CacheOfLog(events[id], sequences[id], logs[id], bufferSize)
    }

    constructor (bufferSize: nat)
      requires bufferSize > 0
      ensures Valid() && logs == map[]
    {
      this.bufferSize := bufferSize;
      events, sequences, logs := map[], map[], map[];
    }

    method CreateRun(id: RunId) returns (created: bool)
      requires Valid()
      modifies this
      ensures Valid() && created == (id !in old(logs))
      ensures logs == if created then old(logs)[id := []] else old(logs)
    {
      if id in events {
        return false;
      }
      events, sequences, logs := events[id := []], sequences[id := 0], logs[id := []];
      return true;
    }

    method Append(id: RunId, iteration: nat, payload: Payload) returns (r: Result<Event, ReplayError>)
      requires Valid()
      modifies this
      ensures Valid()
      ensures id !in old(logs) ==> r == Failure(NotFound) && logs == old(logs)
      ensures id in old(logs) ==>
        && r == Success(Event(|old(logs)[id]| + 1, iteration, payload))
        && logs == old(logs)[id := old(logs)[id] + [r.value]]
    {
      if id !in events {
        return Failure(NotFound);
      }
      var sequence := sequences[id] + 1;
      var event := Event(sequence, iteration, payload);
      PushKeepsCache(events[id], sequences[id], logs[id], bufferSize, event);
      events := events[id := Push(events[id], event, bufferSize)];
      sequences := sequences[id := sequence];
      logs := logs[id := logs[id] + [event]];
      return Success(event);
    }

    method Replay(id: RunId, cursor: nat) returns (r: Result<seq<Event>, ReplayError>)
      requires Valid()
      ensures id !in logs ==> r == Failure(NotFound)
      ensures id in logs ==>
        var log := logs[id];
        var evicted := |log| - |events[id]|;
        r == if cursor < evicted then Failure(Expired(evicted + 1))
             else Success(log[if cursor <= |log| then cursor else |log|..])
    {
      if id !in events {
        return Failure(NotFound);
      }
      var cached := events[id];
      MemoryReplayIsExact(cached, sequences[id], logs[id], bufferSize, cursor);
      if cached != [] && cursor < cached[0].sequence - 1 {
        return Failure(Expired(cached[0].sequence));
      }
      var found := Filter(cached, cursor);
      return Success(found);
    }

    method RemoveRun(id: RunId)
      requires Valid()
      modifies this
      ensures Valid() && logs == old(logs) - {id}
    {
      events, sequences, logs := events - {id}, sequences - {id}, logs - {id};
    }
  }

  // ----- the SQLite store, one run

  /** One run's hot cache, its counter, its rows, and everything ever appended to it. */
  datatype Stream = Stream(cache: seq<Event>, sequence: nat, rows: seq<Event>, appended: seq<Event>)

  /** A cache may have gaps, but never where a row is: from its first event on, it holds every row. */
  ghost predicate Covers(cache: seq<Event>, rows: seq<Event>) {
    cache != [] ==> forall e :: e in rows && e.sequence >= cache[0].sequence ==> e in cache
  }

  ghost predicate StreamInv(st: Stream) {
    && st.rows == Durable(st.appended)
    && Ascending(st.rows) && Ascending(st.cache)
    && (forall e :: e in st.rows ==> e.sequence <= st.sequence)
    && (forall e :: e in st.cache ==> e.sequence <= st.sequence && e in st.appended)
    && Covers(st.cache, st.rows)
  }

  function AppendTo(st: Stream, size: nat, iteration: nat, payload: Payload): Stream {
    var event := Event(st.sequence + 1, iteration, payload);
    Stream(Push(st.cache, event, size), st.sequence + 1,
           if Transient(event) then st.rows else st.rows + [event], st.appended + [event])
  }

  /** The counter a warm cache starts from: the snapshot's, unless a row is numbered past it. */
  function WarmSequence(cache: seq<Event>, snapshotSequence: nat): nat {
    var last := if cache == [] then 0 else cache[|cache| - 1].sequence;
    if last > snapshotSequence then last else snapshotSequence
  }

  /** A restart: the cache is warmed from the newest rows. */
  function Restart(st: Stream, size: nat, snapshotSequence: nat): Stream {
    var cache := Newest(st.rows, size);
    Stream(cache, WarmSequence(cache, snapshotSequence), st.rows, st.appended)
  }

  /** `SQLiteEventStore.replay`: from the cache when it reaches back far enough, else from the table. */
  function ReplayStream(st: Stream, cursor: nat): Result<seq<Event>, ReplayError> {
    if st.cache != [] && cursor + 1 >= st.cache[0].sequence then Success(After(st.cache, cursor))
    else if st.rows != [] && cursor + 1 < st.rows[0].sequence then Failure(Expired(st.rows[0].sequence))
    else Success(After(st.rows, cursor))
  }

  lemma {:induction false} DurableFacts(events: seq<Event>)
    ensures forall e :: e in Durable(events) <==> e in events && !Transient(e)
  {
    if events != [] {
      DurableFacts(events[..|events| - 1]);
      assert forall e :: e in events <==> e in events[..|events| - 1] || e == events[|events| - 1];
    }
  }

  lemma NewestFacts(events: seq<Event>, size: nat)
    requires Ascending(events)
    ensures Ascending(Newest(events, size))
    ensures forall e :: e in Newest(events, size) ==> e in events
    ensures Newest(events, size) != [] ==>
      forall e :: e in events && e.sequence >= Newest(events, size)[0].sequence ==> e in Newest(events, size)
  {
    var newest := Newest(events, size);
    if newest != [] {
      var start := |events| - |newest|;
      forall e | e in events && e.sequence >= newest[0].sequence ensures e in newest {
        var k :| 0 <= k < |events| && events[k] == e;
        assert k >= start;
        assert newest[k - start] == e;
      }
    }
  }

  /** An event numbered past everything extends an ascending list. */
  lemma SnocAscends(events: seq<Event>, event: Event)
    requires Ascending(events) && forall e :: e in events ==> e.sequence < event.sequence
    ensures Ascending(events + [event])
  {
    var longer := events + [event];
    forall i, j | 0 <= i < j < |longer| ensures longer[i].sequence < longer[j].sequence {
      assert longer[i] == events[i] && events[i] in events;
    }
  }

  lemma SnocDurable(events: seq<Event>, event: Event)
    ensures Durable(events + [event]) == (if Transient(event) then Durable(events) else Durable(events) + [event])
  {
    assert (events + [event])[..|events|] == events;
  }

  lemma SnocCovers(cache: seq<Event>, rows: seq<Event>, event: Event)
    requires Covers(cache, rows)
    requires forall e :: e in cache || e in rows ==> e.sequence < event.sequence
    ensures Covers(cache + [event], rows + [event]) && Covers(cache + [event], rows)
  {
    var whole := cache + [event];
    assert cache != [] ==> whole[0] == cache[0];
    assert forall e :: e in whole <==> e in cache || e == event;
  }

  /** What falls out of a full cache lies before the first event left in it. */
  lemma NewestCovers(whole: seq<Event>, rows: seq<Event>, size: nat)
    requires Ascending(whole) && Covers(whole, rows)
    ensures Covers(Newest(whole, size), rows)
  {
    NewestFacts(whole, size);
    var newest := Newest(whole, size);
    if newest != [] {
      assert newest[0] == whole[|whole| - |newest|];
      assert whole[0].sequence <= newest[0].sequence;
    }
  }

  lemma AppendKeepsStream(st: Stream, size: nat, iteration: nat, payload: Payload)
    requires StreamInv(st) && size > 0
    ensures StreamInv(AppendTo(st, size, iteration, payload))
  {
    hide Transient, Newest, Ascending, Covers, Durable;
    var event := Event(st.sequence + 1, iteration, payload);
    var whole := st.cache + [event];
    SnocDurable(st.appended, event);
    SnocAscends(st.rows, event);
    SnocAscends(st.cache, event);
    SnocCovers(st.cache, st.rows, event);
    NewestCovers(whole, st.rows, size);
    NewestCovers(whole, st.rows + [event], size);
    NewestFacts(whole, size);
  }

  lemma RestartKeepsStream(st: Stream, size: nat, snapshotSequence: nat)
    requires StreamInv(st) && size > 0
    ensures StreamInv(Restart(st, size, snapshotSequence))
  {
    hide Durable, Ascending;
    NewestFacts(st.rows, size);
    DurableFacts(st.appended);
    if st.rows != [] {
      LastIsLargest(st.rows, size);
    } else {
      assert Newest(st.rows, size) == [];
    }
  }

  /** The newest row is among the newest `size`, and no row is numbered past it. */
  lemma LastIsLargest(rows: seq<Event>, size: nat)
    requires Ascending(rows) && size > 0 && rows != []
    ensures Newest(rows, size) != [] && Newest(rows, size)[|Newest(rows, size)| - 1] == rows[|rows| - 1]
    ensures forall e :: e in rows ==> e.sequence <= rows[|rows| - 1].sequence
  {
  }

  /** What a subscriber may rely on in a replay. */
  ghost predicate CompleteAfter(found: seq<Event>, st: Stream, cursor: nat) {
    && Ascending(found)
    && (forall e :: e in found ==> e.sequence > cursor && e.sequence <= st.sequence && e in st.appended)
    && (forall e :: e in st.rows && e.sequence > cursor ==> e in found)
  }

  /** Nothing numbered up to `cursor + 1` is left, so the event after the cursor may be missing. */
  ghost predicate StartsPast(events: seq<Event>, cursor: nat) { forall e :: e in events ==> e.sequence > cursor + 1 }

  lemma FirstIsSmallest(events: seq<Event>, cursor: nat)
    requires Ascending(events) && events != []
    ensures StartsPast(events, cursor) <==> cursor + 1 < events[0].sequence
  {
    assert events[0] in events;
  }

  /** A replay is all of the cache after the cursor when that reaches back to it, and all of the table otherwise. */
  ghost predicate FromOneSource(found: seq<Event>, st: Stream, cursor: nat) {
    forall e :: e in found <==> e in (if StartsPast(st.cache, cursor) then st.rows else st.cache) && e.sequence > cursor
  }

  /**
   The cache refines the log.  A replay, from the cache or from the table, returns in strictly
   increasing order every durable event after the cursor and invents none; and it reports a range
   expired exactly when neither source reaches back to the cursor.
   */
  lemma ReplayIsComplete(st: Stream, cursor: nat)
    requires StreamInv(st)
    ensures match ReplayStream(st, cursor)
      case Success(found) => CompleteAfter(found, st, cursor) && FromOneSource(found, st, cursor)
      case Failure(error) =>
        && st.rows != [] && error == Expired(st.rows[0].sequence) && cursor + 1 < st.rows[0].sequence
        && (st.cache != [] ==> cursor + 1 < st.cache[0].sequence)
    ensures ReplayStream(st, cursor).Failure? <==>
      st.rows != [] && StartsPast(st.rows, cursor) && StartsPast(st.cache, cursor)
  {
    AfterFacts(st.cache, cursor);
    AfterFacts(st.rows, cursor);
    DurableFacts(st.appended);
    if st.rows != [] {
      FirstIsSmallest(st.rows, cursor);
    }
    if st.cache != [] {
      FirstIsSmallest(st.cache, cursor);
    } else {
      assert StartsPast(st.cache, cursor);
    }
  }

  class SqliteEventStore {
    const bufferSize: nat
    var events: map<RunId, seq<Event>>
    var sequences: map<RunId, nat>
    /** The `run_events` table. */
    var table: map<RunId, seq<Event>>
    ghost var appended: map<RunId, seq<Event>>

    ghost predicate Valid()
      reads this
    {
      && bufferSize > 0
      && events.Keys == sequences.Keys == appended.Keys && table.Keys == events.Keys
      && forall id :: id in events ==> StreamInv(StreamOf(id))
    }

    ghost function StreamOf(id: RunId): Stream
      requires id in events && id in sequences && id in table && id in appended
      reads this
    {
      Stream(events[id], sequences[id], table[id], appended[id])
    }

    /**
     Opening the store over an existing table: rows of runs that are not retained are deleted, and each
     retained run's cache is warmed.  `history` is what was appended before, of which the table is the
     durable part.
     */
    constructor (bufferSize: nat, rows: map<RunId, seq<Event>>, initialSequences: map<RunId, nat>,
        ghost history: map<RunId, Stream>)
      requires bufferSize > 0
      requires forall id :: id in rows <==> id in history
      requires forall id :: id in rows ==> StreamInv(history[id]) && history[id].rows == rows[id]
      ensures Valid() && table.Keys == initialSequences.Keys
      ensures forall id :: id in initialSequences ==>
        StreamOf(id) == Restart(Past(history, id), bufferSize, initialSequences[id])
    {
      hide StreamInv, Newest, WarmSequence, RowsIn;
      this.bufferSize := bufferSize;
      table := map id | id in initialSequences :: RowsIn(rows, id);
      events := map id | id in initialSequences :: Newest(RowsIn(rows, id), bufferSize);
      sequences := map id | id in initialSequences ::
          WarmSequence(Newest(RowsIn(rows, id), bufferSize), initialSequences[id]);
      appended := map id | id in initialSequences :: Past(history, id).appended;
      new;
      forall id | id in initialSequences
        ensures StreamOf(id) == Restart(Past(history, id), bufferSize, initialSequences[id]) && StreamInv(StreamOf(id))
      {
        PastFits(rows, history, id);
        RestartKeepsStream(Past(history, id), bufferSize, initialSequences[id]);
      }
    }

    /** What is known of a run's earlier events; nothing, for a run without rows. */
    static ghost function Past(history: map<RunId, Stream>, id: RunId): Stream {
      if id in history then history[id] else Stream([], 0, [], [])
    }

    static lemma PastFits(rows: map<RunId, seq<Event>>, history: map<RunId, Stream>, id: RunId)
      requires id in rows <==> id in history
      requires id in rows ==> StreamInv(history[id]) && history[id].rows == rows[id]
      ensures StreamInv(Past(history, id)) && Past(history, id).rows == RowsIn(rows, id)
    {
      EmptyStreamFits();
    }

    static function RowsIn(rows: map<RunId, seq<Event>>, id: RunId): seq<Event> { if id in rows then rows[id] else [] }

    method CreateRun(id: RunId) returns (created: bool)
      requires Valid()
      modifies this
      ensures Valid() && created == (id !in old(events))
      ensures events.Keys == old(events.Keys) + {id}
      ensures created ==> StreamOf(id) == Stream([], 0, [], [])
      ensures forall other :: other in old(events) ==> StreamOf(other) == old(StreamOf(other))
    {
      hide StreamInv;
      EmptyStreamFits();
      if id in events {
        return false;
      }
      events, sequences, table, appended := events[id := []], sequences[id := 0], table[id := []], appended[id := []];
      return true;
    }

    method Append(id: RunId, iteration: nat, payload: Payload) returns (r: Result<Event, ReplayError>)
      requires Valid()
      modifies this
      ensures Valid() && events.Keys == old(events.Keys)
      ensures id !in events ==> r == Failure(NotFound)
      ensures id in events ==>
        && r == Success(Event(old(sequences)[id] + 1, iteration, payload))
        && StreamOf(id) == AppendTo(old(StreamOf(id)), bufferSize, iteration, payload)
      ensures forall other :: other in events && other != id ==> StreamOf(other) == old(StreamOf(other))
    {
      hide StreamInv, Push, Transient;
      if id !in events {
        return Failure(NotFound);
      }
      AppendKeepsStream(StreamOf(id), bufferSize, iteration, payload);
      var event := Event(sequences[id] + 1, iteration, payload);
      events := events[id := Push(events[id], event, bufferSize)];
      sequences := sequences[id := event.sequence];
      appended := appended[id := appended[id] + [event]];
      Insert(event, id);
      return Success(event);
    }

    /** The second half of an append: durable events become rows. */
    method Insert(event: Event, id: RunId)
      requires id in table
      modifies this`table
      ensures table == old(table)[id := if Transient(event) then old(table)[id] else old(table)[id] + [event]]
    {
      if Transient(event) {
        return;
      }
      table := table[id := table[id] + [event]];
    }

    method Replay(id: RunId, cursor: nat) returns (r: Result<seq<Event>, ReplayError>)
      requires Valid()
      ensures id !in events ==> r == Failure(NotFound)
      ensures id in events ==> r == ReplayStream(StreamOf(id), cursor)
      ensures id in events && r.Success? ==>
        CompleteAfter(r.value, StreamOf(id), cursor) && FromOneSource(r.value, StreamOf(id), cursor)
    {
      if id !in events {
        return Failure(NotFound);
      }
      ReplayIsComplete(StreamOf(id), cursor);
      hide StreamInv, CompleteAfter, FromOneSource;
      var cached := events[id];
      if cached != [] && cursor + 1 >= cached[0].sequence {
        var hot := Filter(cached, cursor);
        return Success(hot);
      }
      var rows := table[id];
      if rows != [] && cursor + 1 < rows[0].sequence {
        return Failure(Expired(rows[0].sequence));
      }
      var found := Filter(rows, cursor);
      return Success(found);
    }

    method RemoveRun(id: RunId)
      requires Valid()
      modifies this
      ensures Valid() && events.Keys == old(events.Keys) - {id}
      ensures forall other :: other in events ==> StreamOf(other) == old(StreamOf(other))
    {
      events, sequences, table, appended := events - {id}, sequences - {id}, table - {id}, appended - {id};
    }
  }

  // ----- over any history of appends and restarts

  datatype StoreStep = Appends(iteration: nat, payload: Payload) | Restarts(snapshotSequence: nat)

  function StepOf(st: Stream, size: nat, step: StoreStep): Stream {
    match step
    case Appends(iteration, payload) => AppendTo(st, size, iteration, payload)
    case Restarts(snapshotSequence) => Restart(st, size, snapshotSequence)
  }

  function HistoryOf(st: Stream, size: nat, steps: seq<StoreStep>): Stream {
    if steps == [] then st else StepOf(HistoryOf(st, size, steps[..|steps| - 1]), size, steps[|steps| - 1])
  }

  lemma {:induction false} HistoryKeepsStream(size: nat, steps: seq<StoreStep>)
    requires size > 0
    ensures StreamInv(HistoryOf(Stream([], 0, [], []), size, steps))
    decreases |steps|
  {
    hide StreamInv;
    if steps == [] {
      EmptyStreamFits();
    } else {
      HistoryKeepsStream(size, steps[..|steps| - 1]);
      var st := HistoryOf(Stream([], 0, [], []), size, steps[..|steps| - 1]);
      match steps[|steps| - 1]
      case Appends(iteration, payload) => AppendKeepsStream(st, size, iteration, payload);
      case Restarts(snapshotSequence) => RestartKeepsStream(st, size, snapshotSequence);
    }
  }

  /**
   After any appends, evictions and restarts the rows are the durable events, and a replay that succeeds
   returns every one of them after the cursor, in strictly increasing order, and invents none; it expires
   exactly when neither source reaches back to the cursor.
   */
  lemma StoreIsAlwaysComplete(size: nat, steps: seq<StoreStep>, cursor: nat)
    requires size > 0
    ensures var st := HistoryOf(Stream([], 0, [], []), size, steps);
      && (forall e :: e in st.rows <==> e in st.appended && !Transient(e))
      && (ReplayStream(st, cursor).Success? ==>
            var found := ReplayStream(st, cursor).value;
            CompleteAfter(found, st, cursor) && FromOneSource(found, st, cursor))
      && (ReplayStream(st, cursor).Failure? <==>
            st.rows != [] && StartsPast(st.rows, cursor) && StartsPast(st.cache, cursor))
  {
    hide ReplayStream, Transient, CompleteAfter, FromOneSource, HistoryOf, StartsPast;
    HistoryKeepsStream(size, steps);
    var st := HistoryOf(Stream([], 0, [], []), size, steps);
    ReplayIsComplete(st, cursor);
    DurableFacts(st.appended);
  }

  // ----- what was streamed just now

  lemma NewestTwice(x: seq<Event>, event: Event, size: nat)
    requires size > 0
    ensures Newest(Newest(x, size) + [event], size) == Newest(x + [event], size)
  {
  }

  /** The events of a row of appends, numbered on from `sequence`. */
  function Numbering(sequence: nat, steps: seq<StoreStep>): (events: seq<Event>)
    requires forall k :: 0 <= k < |steps| ==> steps[k].Appends?
    ensures |events| == |steps|
    ensures forall k :: 0 <= k < |steps| ==>
      events[k] == Event(sequence + k + 1, steps[k].iteration, steps[k].payload)
  {
    seq(|steps|, k requires 0 <= k < |steps| => Event(sequence + k + 1, steps[k].iteration, steps[k].payload))
  }

  lemma {:induction false} AppendsFillCache(st: Stream, size: nat, steps: seq<StoreStep>)
    requires size > 0 && |st.cache| <= size && forall k :: 0 <= k < |steps| ==> steps[k].Appends?
    ensures var after := HistoryOf(st, size, steps);
      && after.sequence == st.sequence + |steps|
      && after.cache == Newest(st.cache + Numbering(st.sequence, steps), size)
      && after.appended == st.appended + Numbering(st.sequence, steps)
    decreases |steps|
  {
    hide Transient, Newest, Numbering;
    if steps == [] {
      NothingAppended(st, size);
    } else {
      var n := |steps| - 1;
      AppendsFillCache(st, size, steps[..n]);
      var before, last := Numbering(st.sequence, steps[..n]),
          Event(st.sequence + n + 1, steps[n].iteration, steps[n].payload);
      NumberingLast(st.sequence, steps);
      NewestTwice(st.cache + before, last, size);
      assert st.cache + (before + [last]) == st.cache + before + [last];
      assert st.appended + (before + [last]) == st.appended + before + [last];
    }
  }

  lemma NothingAppended(st: Stream, size: nat)
    requires |st.cache| <= size
    ensures Newest(st.cache + Numbering(st.sequence, []), size) == st.cache
    ensures st.appended + Numbering(st.sequence, []) == st.appended
  {
    assert st.cache + [] == st.cache && st.appended + [] == st.appended;
  }

  lemma NumberingLast(sequence: nat, steps: seq<StoreStep>)
    requires steps != [] && forall k :: 0 <= k < |steps| ==> steps[k].Appends?
    ensures var n := |steps| - 1;
      Numbering(sequence, steps)
          == Numbering(sequence, steps[..n]) + [Event(sequence + n + 1, steps[n].iteration, steps[n].payload)]
  {
  }

  lemma {:induction false} CacheIsBounded(size: nat, steps: seq<StoreStep>)
    requires size > 0
    ensures |HistoryOf(Stream([], 0, [], []), size, steps).cache| <= size
    decreases |steps|
  {
    hide WarmSequence;
    if steps != [] {
      CacheIsBounded(size, steps[..|steps| - 1]);
    }
  }

  lemma {:induction false} AfterSuffix(past: seq<Event>, recent: seq<Event>, cursor: nat)
    requires forall e :: e in past ==> e.sequence <= cursor
    requires forall e :: e in recent ==> e.sequence > cursor
    ensures After(past + recent, cursor) == recent
    decreases |past|
  {
    if past != [] {
      AfterSuffix(past[1..], recent, cursor);
      assert (past + recent)[1..] == past[1..] + recent;
      assert [] + recent == recent;
    } else {
      assert past + recent == recent;
      AfterEverything(recent, cursor);
    }
  }

  lemma {:induction false} AfterEverything(events: seq<Event>, cursor: nat)
    requires forall e :: e in events ==> e.sequence > cursor
    ensures After(events, cursor) == events
  {
    if events != [] {
      AfterEverything(events[1..], cursor);
    }
  }

  /**
   Nothing recent is missed.  Whatever happened before, a client that was up to date and comes back while no
   more events were appended than the cache holds is replayed every one of them, deltas included.
   */
  lemma RecentIsComplete(size: nat, before: seq<StoreStep>, steps: seq<StoreStep>)
    requires size > 0 && 0 < |steps| <= size && forall k :: 0 <= k < |steps| ==> steps[k].Appends?
    ensures var st := HistoryOf(Stream([], 0, [], []), size, before);
      ReplayStream(HistoryOf(st, size, steps), st.sequence) == Success(Numbering(st.sequence, steps))
  {
    hide HistoryOf, After, Newest, Numbering, Ascending, Covers;
    var st := HistoryOf(Stream([], 0, [], []), size, before);
    HistoryKeepsStream(size, before);
    CacheIsBounded(size, before);
    AppendsFillCache(st, size, steps);
    NumberedOn(st.sequence, steps);
    CacheReachesBack(st.cache, Numbering(st.sequence, steps), size, st.sequence);
  }

  lemma NumberedOn(sequence: nat, steps: seq<StoreStep>)
    requires forall k :: 0 <= k < |steps| ==> steps[k].Appends?
    ensures var events := Numbering(sequence, steps);
      |events| == |steps| && forall k :: 0 <= k < |events| ==> events[k].sequence == sequence + k + 1
  {
  }

  lemma CacheReachesBack(past: seq<Event>, events: seq<Event>, size: nat, sequence: nat)
    requires 0 < |events| <= size && forall e :: e in past ==> e.sequence <= sequence
    requires forall k :: 0 <= k < |events| ==> events[k].sequence == sequence + k + 1
    ensures var cache := Newest(past + events, size);
      cache != [] && cache[0].sequence <= sequence + 1 && After(cache, sequence) == events
  {
    hide After;
    var cache := Newest(past + events, size);
    var kept := past[|past| - (|cache| - |events|)..];
    assert cache == kept + events;
    AfterSuffix(kept, events, sequence);
    if kept != [] {
      assert cache[0] == kept[0] && kept[0] in past;
    } else {
      assert cache[0] == events[0];
    }
  }

  /** A restart warms the cache with as many of the newest rows as fit, and never numbers an event twice. */
  lemma RestartIsWarm(st: Stream, size: nat, snapshotSequence: nat)
    requires Ascending(st.rows) && size > 0
    ensures var warm := Restart(st, size, snapshotSequence);
      && warm.rows == st.rows && |warm.cache| == (if |st.rows| < size then |st.rows| else size)
      && (forall k :: 0 <= k < |warm.cache| ==> warm.cache[k] == st.rows[|st.rows| - |warm.cache| + k])
      && warm.sequence >= snapshotSequence && (forall e :: e in st.rows ==> e.sequence <= warm.sequence)
      && (warm.sequence == snapshotSequence || exists e :: e in st.rows && e.sequence == warm.sequence)
  {
    hide WarmSequence, Ascending;
    NewestAre(st.rows, size);
    WarmIsLargest(st.rows, size, snapshotSequence);
  }

  lemma NewestAre(rows: seq<Event>, size: nat)
    ensures var newest := Newest(rows, size);
      && |newest| == (if |rows| < size then |rows| else size)
      && forall k :: 0 <= k < |newest| ==> newest[k] == rows[|rows| - |newest| + k]
  {
  }

  lemma WarmIsLargest(rows: seq<Event>, size: nat, snapshotSequence: nat)
    requires Ascending(rows) && size > 0
    ensures var sequence := WarmSequence(Newest(rows, size), snapshotSequence);
      && sequence >= snapshotSequence && (forall e :: e in rows ==> e.sequence <= sequence)
      && (sequence == snapshotSequence || exists e :: e in rows && e.sequence == sequence)
  {
    if rows != [] {
      LastIsLargest(rows, size);
      hide Ascending, Newest;
      assert rows[|rows| - 1] in rows;
    }
  }

  lemma EmptyStreamFits()
    ensures StreamInv(Stream([], 0, [], []))
  {
  }
}
