/**
 How long a run has been active (`backend/run_manager.py`): the clock of one run, which stands still
 while the run is paused.  Instants are readings of a monotonic clock.
 */
module PauseClock {
  import opened Wrappers

  /** What happened to the run's clock, and when. */
  datatype Mark = Parked(at: real) | Woken(at: real)

  /** The marks come in clock order, none before `started` or after `now`. */
  ghost predicate Ordered(started: real, marks: seq<Mark>, now: real) {
    if marks == [] then started <= now
    else
      var last := marks[|marks| - 1].at;
      last <= now && Ordered(started, marks[..|marks| - 1], last)
  }

  ghost predicate PausedAfter(marks: seq<Mark>) { marks != [] && marks[|marks| - 1].Parked? }

  /** The time up to `now` that was not spent paused, read off the history. */
  ghost function ActiveTime(started: real, marks: seq<Mark>, now: real): real {
    if marks == [] then now - started
    else
      var last := marks[|marks| - 1];
      ActiveTime(started, marks[..|marks| - 1], last.at) + (if last.Parked? then 0.0 else now - last.at)
  }

  /** Stretches between marks that were spent paused. */
  ghost function PausedTime(started: real, marks: seq<Mark>, now: real): real {
    if marks == [] then 0.0
    else
      var last := marks[|marks| - 1];
      PausedTime(started, marks[..|marks| - 1], last.at) + (if last.Parked? then now - last.at else 0.0)
  }

  /** A park never follows a park: the status table allows it only from a working status. */
  ghost predicate Alternate(marks: seq<Mark>) {
    marks == [] || (Alternate(marks[..|marks| - 1]) && marks[|marks| - 1].Parked? == !PausedAfter(marks[..|marks| - 1]))
  }

  /** Active and paused time split the run's whole time, and neither is ever negative. */
  lemma {:induction false} TimeIsSplit(started: real, marks: seq<Mark>, now: real)
    requires Ordered(started, marks, now)
    ensures ActiveTime(started, marks, now) + PausedTime(started, marks, now) == now - started
    ensures ActiveTime(started, marks, now) >= 0.0 && PausedTime(started, marks, now) >= 0.0
  {
    if marks != [] {
      TimeIsSplit(started, marks[..|marks| - 1], marks[|marks| - 1].at);
    }
  }

  /** The clock fields the manager keeps for one run. */
  class Clock {
    const started: real
    var pausedTotal: real
    var pausedStarted: Option<real>
    ghost var marks: seq<Mark>

    ghost predicate Valid(now: real)
      reads this
    {
      && Ordered(started, marks, now) && Alternate(marks)
      && pausedStarted == (if PausedAfter(marks) then Some(marks[|marks| - 1].at) else None)
      && pausedTotal + (if PausedAfter(marks) then now - marks[|marks| - 1].at else 0.0)
          == PausedTime(started, marks, now)
    }

    constructor (now: real)
      ensures Valid(now) && started == now && marks == []
    {
      started, pausedTotal, pausedStarted, marks := now, 0.0, None, [];
    }

    /** `enter_paused`, after its transition. */
    method Park(ghost last: real, now: real)
      requires Valid(last) && last <= now && pausedStarted.None?
      modifies this
      ensures Valid(now) && marks == old(marks) + [Parked(now)]
    {
      pausedStarted := Some(now);
      marks := marks + [Parked(now)];
      assert marks[..|marks| - 1] == old(marks);
    }

    /** `resume_run`, before its commit; without a recorded park there is nothing to bank. */
    method Wake(ghost last: real, now: real)
      requires Valid(last) && last <= now
      modifies this
      ensures Valid(now)
      ensures marks == if old(pausedStarted).Some? then old(marks) + [Woken(now)] else old(marks)
    {
      if pausedStarted.Some? {
        pausedTotal := pausedTotal + (now - pausedStarted.value);
        pausedStarted := None;
        marks := marks + [Woken(now)];
        assert marks[..|marks| - 1] == old(marks);
      }
    }

    /**
     `active_elapsed`.  While the run is paused the source reads the clock twice, for the open stretch and
     for the whole time.  What it returns is the time not spent paused, plus the gap between the two readings
     while paused; so its lower bound never bites.
     */
    method ActiveElapsed(ghost last: real, now: real, later: real) returns (elapsed: real)
      requires Valid(last) && last <= now <= later
      ensures elapsed == ActiveTime(started, marks, later) + (if PausedAfter(marks) then later - now else 0.0)
      ensures PausedAfter(marks) ==> ActiveTime(started, marks, later) == ActiveTime(started, marks, last)
    {
      TimeIsSplit(started, marks, later);
      var paused := pausedTotal;
      if pausedStarted.Some? {
        paused := paused + (now - pausedStarted.value);
      }
      elapsed := later - started - paused;
      if elapsed < 0.0 {
        elapsed := 0.0;
      }
    }
  }
}
