/**
 The watcher's deadlines (`next_due`, `heard` and `due` in `crates/cli/src/watch.rs`): what changed is
 ingested once nothing more changes for a quiet period, and no later than `LONGEST` after the first of
 it, however much more changes. Times are in milliseconds.
 */
module Debounce {
  import opened Wrappers
  import opened Watches

  const QUIET: int := 1000
  const LONGEST: int := 10000

  datatype Timer = Timer(pending: set<Path>, rescan: bool, first: Option<int>, last: Option<int>,
      heldUntil: Option<int>)

  /** No time at all is later than any. */
  function Sooner(a: Option<int>, b: Option<int>): Option<int> {
    if a.None? || (b.Some? && b.value <= a.value) then b else a
  }

  predicate Reached(due: Option<int>, now: int) {
    due.Some? && due.value <= now
  }

  ghost predicate Sound(t: Timer, clock: int) {
    && (t.pending != {} || t.rescan <==> t.first.Some?)
    && (t.first.Some? <==> t.last.Some?)
    && (t.first.Some? ==> t.first.value <= t.last.value <= clock)
  }

  /** When what changed is to be ingested. */
  function ChangesDue(t: Timer): Option<int> {
    if t.first.Some? && t.last.Some? then Sooner(Some(t.last.value + QUIET), Some(t.first.value + LONGEST)) else None
  }

  /** After an event that names `paths`, none of them the workspace's own. */
  function AfterEvent(t: Timer, paths: set<Path>, lost: bool, now: int): Timer {
    var heard := t.(pending := t.pending + paths, rescan := t.rescan || lost);
    if heard.pending == {} && !heard.rescan then heard
    else heard.(first := if t.first.Some? then t.first else Some(now), last := Some(now))
  }

  predicate FlushDue(t: Timer, now: int) {
    Reached(ChangesDue(t), now) || Reached(t.heldUntil, now)
  }

  function AfterFlush(heldUntil: Option<int>): Timer {
    Timer({}, false, None, None, heldUntil)
  }

  /** The deadlines as the timer step tests them: how long since the last event, and since the first. */
  lemma DueWhen(t: Timer, now: int)
    ensures FlushDue(t, now) <==>
            || (t.first.Some? && t.last.Some? && (now - t.last.value >= QUIET || now - t.first.value >= LONGEST))
            || (t.heldUntil.Some? && now >= t.heldUntil.value)
  {
  }

  lemma NotDueAgain(heldUntil: Option<int>, now: int)
    requires heldUntil.Some? ==> heldUntil.value >= now + QUIET
    ensures !FlushDue(AfterFlush(heldUntil), now)
  {
  }

  // --- Runs ------------------------------------------------------------------------------------

  datatype Tick =
    | Event(at: int, paths: set<Path>, lost: bool)
    // the timer step; what it holds back is held until `until`
    | Fire(at: int, until: Option<int>)
    // anything else the loop does: a path followed or no longer followed, an event of no interest
    | Other(at: int)

  predicate Flushes(t: Timer, tick: Tick) {
    tick.Fire? && FlushDue(t, tick.at)
  }

  function AfterTick(t: Timer, tick: Tick): Timer {
    match tick
    case Event(at, paths, lost) => AfterEvent(t, paths, lost, at)
    case Fire(at, until) => if FlushDue(t, at) then AfterFlush(until) else t
    case Other(_) => t
  }

  ghost function AfterAll(t: Timer, ticks: seq<Tick>): Timer
    decreases ticks
  {
    if ticks == [] then t else AfterAll(AfterTick(t, ticks[0]), ticks[1..])
  }

  /** The loop sleeps until the soonest deadline, so no step comes later than it; time does not go back. */
  ghost predicate OnTime(t: Timer, clock: int, ticks: seq<Tick>)
    decreases ticks
  {
    ticks != [] ==>
      && clock <= ticks[0].at
      && Prompt(t, ticks[0].at)
      && OnTime(AfterTick(t, ticks[0]), ticks[0].at, ticks[1..])
  }

  ghost predicate Prompt(t: Timer, now: int) {
    var due := Sooner(ChangesDue(t), t.heldUntil);
    due.Some? ==> now <= due.value
  }

  lemma TickKeeps(t: Timer, clock: int, tick: Tick)
    requires Sound(t, clock) && clock <= tick.at
    ensures Sound(AfterTick(t, tick), tick.at)
  {
  }

  /** What is left of a run that is on time is on time, from where the first part of it got to. */
  lemma {:induction false} OnTimeAfter(t: Timer, clock: int, some: seq<Tick>, rest: seq<Tick>) returns (reached: int)
    requires Sound(t, clock) && OnTime(t, clock, some + rest)
    ensures Sound(AfterAll(t, some), reached) && OnTime(AfterAll(t, some), reached, rest)
    decreases some
  {
    if some == [] {
      assert some + rest == rest;
      return clock;
    }
    assert (some + rest)[1..] == some[1..] + rest;
    TickKeeps(t, clock, some[0]);
    reached := OnTimeAfter(AfterTick(t, some[0]), some[0].at, some[1..], rest);
  }

  /** Some tick flushes while `p` is pending, no later than `deadline`. */
  ghost predicate FlushedBy(t: Timer, ticks: seq<Tick>, p: Path, deadline: int)
    decreases ticks
  {
    && ticks != []
    && (|| (Flushes(t, ticks[0]) && p in t.pending && ticks[0].at <= deadline)
        || FlushedBy(AfterTick(t, ticks[0]), ticks[1..], p, deadline))
  }

  /** A path waits: pending, and the first change since the last flush no later than `heard`. */
  ghost predicate Waits(t: Timer, p: Path, heard: int) {
    p in t.pending && t.first.Some? && t.first.value <= heard
  }

  lemma {:induction false} WaitsOrFlushed(t: Timer, clock: int, ticks: seq<Tick>, p: Path, heard: int)
    requires Sound(t, clock) && OnTime(t, clock, ticks) && Waits(t, p, heard)
    ensures || FlushedBy(t, ticks, p, heard + LONGEST)
            || (Waits(AfterAll(t, ticks), p, heard) && forall i :: 0 <= i < |ticks| ==> ticks[i].at <= heard + LONGEST)
    decreases ticks
  {
    if ticks != [] && !Flushes(t, ticks[0]) {
      TickKeeps(t, clock, ticks[0]);
      WaitsOrFlushed(AfterTick(t, ticks[0]), ticks[0].at, ticks[1..], p, heard);
    }
  }

  /**
   However many events follow, a path heard of is pending at a flush within `LONGEST` -- unless the run
   ends before then.
   */
  lemma FlushedWithinLongest(t: Timer, clock: int, before: seq<Tick>, event: Tick, rest: seq<Tick>, p: Path)
    requires Sound(t, clock) && OnTime(t, clock, before + ([event] + rest))
    requires event.Event? && p in event.paths
    ensures var heard := AfterTick(AfterAll(t, before), event);
            || FlushedBy(heard, rest, p, event.at + LONGEST)
            || (p in AfterAll(heard, rest).pending && forall i :: 0 <= i < |rest| ==> rest[i].at <= event.at + LONGEST)
  {
    var reached := OnTimeAfter(t, clock, before, [event] + rest);
    HeardAndFlushed(AfterAll(t, before), reached, [event] + rest, p);
    assert ([event] + rest)[1..] == rest;
  }

  lemma HeardAndFlushed(t: Timer, clock: int, ticks: seq<Tick>, p: Path)
    requires Sound(t, clock) && OnTime(t, clock, ticks)
    requires ticks != [] && ticks[0].Event? && p in ticks[0].paths
    ensures var (event, rest) := (ticks[0], ticks[1..]); var heard := AfterTick(t, event);
            || FlushedBy(heard, rest, p, event.at + LONGEST)
            || (Waits(AfterAll(heard, rest), p, event.at) && forall i ::
                0 <= i < |rest| ==> rest[i].at <= event.at + LONGEST)
  {
    TickKeeps(t, clock, ticks[0]);
    WaitsOrFlushed(AfterTick(t, ticks[0]), ticks[0].at, ticks[1..], p, ticks[0].at);
  }

  /** Some tick flushes, no later than `deadline`. */
  ghost predicate FlushesBy(t: Timer, ticks: seq<Tick>, deadline: int)
    decreases ticks
  {
    && ticks != []
    && ((Flushes(t, ticks[0]) && ticks[0].at <= deadline) || FlushesBy(AfterTick(t, ticks[0]), ticks[1..], deadline))
  }

  /** What is held back is looked at again by the time it is held until, whatever else is heard. */
  lemma {:induction false} HeldUntilFlush(t: Timer, clock: int, ticks: seq<Tick>)
    requires OnTime(t, clock, ticks) && t.heldUntil.Some?
    ensures || FlushesBy(t, ticks, t.heldUntil.value)
            || (AfterAll(t, ticks).heldUntil == t.heldUntil && forall i ::
                0 <= i < |ticks| ==> ticks[i].at <= t.heldUntil.value)
    decreases ticks
  {
    if ticks != [] && !Flushes(t, ticks[0]) {
      HeldUntilFlush(AfterTick(t, ticks[0]), ticks[0].at, ticks[1..]);
    }
  }

  /** A burst is ingested once: while events keep coming, only `LONGEST` or what is held back ends the wait. */
  lemma {:induction false} BurstWaits(t: Timer, clock: int, ticks: seq<Tick>, p: Path)
    requires Sound(t, clock) && OnTime(t, clock, ticks) && p in t.pending && t.heldUntil.None?
    requires forall i :: 0 <= i < |ticks| ==> ticks[i].at < t.first.value + LONGEST
    requires Busy(t.last.value, ticks)
    ensures p in AfterAll(t, ticks).pending && AfterAll(t, ticks).first == t.first
    decreases ticks
  {
    if ticks != [] {
      var tick := ticks[0];
      TickKeeps(t, clock, tick);
      assert !Flushes(t, tick);
      BurstWaits(AfterTick(t, tick), tick.at, ticks[1..], p);
    }
  }

  /** No quiet period passes without an event, the last before these ticks having been at `last`. */
  ghost predicate Busy(last: int, ticks: seq<Tick>)
    decreases ticks
  {
    ticks != [] ==>
      && ticks[0].at < last + QUIET
      && Busy(if ticks[0].Event? then ticks[0].at else last, ticks[1..])
  }
}
