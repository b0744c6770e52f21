/**
 A subscriber of the SQLite event store (`EventStore.subscribe` over `SQLiteEventStore.replay`,
 `backend/event_store.py`): it replays from its cursor, yields what it found one event at a time and
 waits, while the run appends events and the cache evicts them in between.
 */
module Subscriber {
  import opened Wrappers
  import opened RunTypes
  import opened EventStore

  /** `pending` is the replay being yielded; `closed` after an expired range or the end of the run. */
  datatype Sub = Sub(start: nat, cursor: nat, pending: seq<Event>, yielded: seq<Event>, closed: bool)

  datatype World = World(store: Stream, sub: Sub)

  datatype Turn =
    | RunAppends(iteration: nat, payload: Payload)   // whatever the run does meanwhile
    | Fetch                                          // nothing pending: replay from the cursor
    | Yield                                          // hand out the next pending event
    | Close                                          // nothing pending and the run is terminal

  function Subscribe(store: Stream, start: nat): World { World(store, Sub(start, start, [], [], false)) }

  function Take(w: World, size: nat, turn: Turn): World {
    var sub := w.sub;
    match turn
    case RunAppends(iteration, payload) => w.(store := AppendTo(w.store, size, iteration, payload))
    case Fetch =>
      if sub.closed || sub.pending != [] then w
      else
        (match ReplayStream(w.store, sub.cursor)
         case Success(found) => w.(sub := sub.(pending := found))
         case Failure(_) => w.(sub := sub.(closed := true)))
    case Yield =>
      if sub.closed || sub.pending == [] then w
      else
        var event := sub.pending[0];
        w.(sub := sub.(cursor := event.sequence, pending := sub.pending[1..], yielded := sub.yielded + [event]))
    case Close => if sub.pending == [] then w.(sub := sub.(closed := true)) else w
  }

  function Taken(w: World, size: nat, turns: seq<Turn>): World {
    if turns == [] then w else Take(Taken(w, size, turns[..|turns| - 1]), size, turns[|turns| - 1])
  }

  /**
   Strictly increasing, hence without repeats; every durable event up to the cursor; nothing invented; and
   nothing that was fetched is given up by closing.
   */
  ghost predicate Delivered(w: World) {
    var sub := w.sub;
    && Ascending(sub.yielded)
    && (forall e :: e in sub.yielded ==> sub.start < e.sequence <= sub.cursor && e in w.store.appended)
    && (forall e :: e in w.store.rows && sub.start < e.sequence <= sub.cursor ==> e in sub.yielded)
    && (sub.closed ==> sub.pending == [])
  }

  /** What is pending continues from the cursor and skips no durable event on its way. */
  ghost predicate PendingFits(w: World) {
    var sub := w.sub;
    && Ascending(sub.pending)
    && (forall e :: e in sub.pending ==> sub.cursor < e.sequence <= w.store.sequence && e in w.store.appended)
    && (sub.pending != [] ==>
          forall e :: e in w.store.rows && sub.cursor < e.sequence <= sub.pending[|sub.pending| - 1].sequence ==>
              e in sub.pending)
  }

  ghost predicate SubInv(w: World) {
    && StreamInv(w.store)
    && w.sub.start <= w.sub.cursor && (w.sub.cursor == w.sub.start || w.sub.cursor <= w.store.sequence)
    && Delivered(w)
    && PendingFits(w)
  }

  lemma AppendKeepsDelivery(w: World, size: nat, iteration: nat, payload: Payload)
    requires SubInv(w) && size > 0
    ensures SubInv(Take(w, size, RunAppends(iteration, payload)))
  {
    hide StreamInv, Transient, Push, Ascending;
    AppendKeepsStream(w.store, size, iteration, payload);
  }

  lemma FetchKeepsDelivery(w: World, size: nat)
    requires SubInv(w)
    ensures SubInv(Take(w, size, Fetch))
  {
    hide StreamInv, ReplayStream;
    ReplayIsComplete(w.store, w.sub.cursor);
  }

  lemma YieldKeepsDelivery(w: World, size: nat)
    requires SubInv(w)
    ensures SubInv(Take(w, size, Yield))
  {
    hide StreamInv;
    var sub := w.sub;
    if !sub.closed && sub.pending != [] {
      var event, rest := sub.pending[0], sub.pending[1..];
      assert event in sub.pending;
      assert forall e :: e in sub.pending <==> e == event || e in rest;
      forall e | e in rest ensures event.sequence < e.sequence {
        var k :| 0 <= k < |rest| && rest[k] == e;
        assert sub.pending[k + 1] == e;
      }
      SnocAscends(sub.yielded, event);
      assert rest != [] ==> rest[|rest| - 1] == sub.pending[|sub.pending| - 1];
      YieldDelivers(w, event);
    }
  }

  /** Durable events up to the next cursor are yielded already, or are the one being yielded. */
  lemma YieldDelivers(w: World, event: Event)
    requires SubInv(w) && w.sub.pending != [] && event == w.sub.pending[0]
    ensures forall e :: e in w.store.rows && w.sub.start < e.sequence <= event.sequence ==> e in w.sub.yielded + [event]
  {
    hide StreamInv;
    var sub := w.sub;
    forall e | e in w.store.rows && sub.start < e.sequence <= event.sequence ensures e in sub.yielded + [event] {
      if e.sequence > sub.cursor {
        assert event.sequence <= sub.pending[|sub.pending| - 1].sequence;
        var k :| 0 <= k < |sub.pending| && sub.pending[k] == e;
        assert k == 0;
      }
    }
  }

  lemma TurnKeepsDelivery(w: World, size: nat, turn: Turn)
    requires SubInv(w) && size > 0
    ensures SubInv(Take(w, size, turn))
  {
    hide StreamInv, Delivered, PendingFits;
    match turn
    case RunAppends(iteration, payload) => AppendKeepsDelivery(w, size, iteration, payload);
    case Fetch => FetchKeepsDelivery(w, size);
    case Yield => YieldKeepsDelivery(w, size);
    case Close => CloseKeepsDelivery(w, size);
  }

  lemma CloseKeepsDelivery(w: World, size: nat)
    requires SubInv(w)
    ensures SubInv(Take(w, size, Close))
  {
    hide StreamInv;
  }

  /**
   Delivery.  For any interleaving of appends, evictions, replays and yields, the yielded events strictly
   increase, and every durable event between the starting cursor and the current one is among them.  A
   subscriber closes only when it has yielded all it fetched.
   */
  lemma {:induction false} DeliveryIsExact(store: Stream, start: nat, size: nat, turns: seq<Turn>)
    requires StreamInv(store) && size > 0
    ensures Delivered(Taken(Subscribe(store, start), size, turns))
    ensures SubInv(Taken(Subscribe(store, start), size, turns))
    decreases |turns|
  {
    if turns == [] {
      assert SubInv(Subscribe(store, start));
    } else {
      DeliveryIsExact(store, start, size, turns[..|turns| - 1]);
      TurnKeepsDelivery(Taken(Subscribe(store, start), size, turns[..|turns| - 1]), size, turns[|turns| - 1]);
    }
  }

  /** A subscriber that finds nothing more to replay has been given every durable event there is. */
  lemma WaitingMeansCaughtUp(w: World)
    requires SubInv(w) && w.sub.pending == [] && ReplayStream(w.store, w.sub.cursor) == Success([])
    ensures forall e :: e in w.store.rows && e.sequence > w.sub.start ==> e in w.sub.yielded
  {
    hide StreamInv, ReplayStream;
    ReplayIsComplete(w.store, w.sub.cursor);
  }
}
