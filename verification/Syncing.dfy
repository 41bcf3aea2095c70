/**
 Whole runs of the watcher's loop (`run` in `crates/cli/src/watch.rs`): its deadlines and what its flushes come to
 together say by when a change that was heard of is told to an ingest, and that the halves of a move reach one.
 `Once` is one turn of the loop; what it did is a `Pass`, and the runs are sequences of those.
 */
module Syncing {
  import opened Wrappers
  import opened Watches
  import opened Debounce
  import opened Watcher
  import opened Moves

  /** What the loop keeps between its steps. */
  datatype Loop = Loop(timer: Timer, held: set<Held>)

  /**
   One step of the loop: when it flushes, the turns that what is then followed takes; otherwise what it unfollowed.
   */
  datatype Pass = Pass(tick: Tick, followed: seq<Followed>, disks: nat -> Disk, turns: seq<Turn>,
      unfollowed: Option<Id>)

  ghost predicate Flushing(loop: Loop, pass: Pass) {
    Flushes(loop.timer, pass.tick) && |pass.followed| == |pass.turns|
  }

  ghost function After(loop: Loop, pass: Pass): Loop {
    Loop(
      AfterTick(loop.timer, pass.tick),
      if Flushing(loop, pass) then AllHeldBack(pass.followed, pass.turns)
      else if pass.unfollowed.Some? then Without(loop.held, pass.unfollowed.value)
      else loop.held)
  }

  ghost function Effects(loop: Loop, pass: Pass): seq<Effect> {
    if Flushing(loop, pass) then AllEffects(pass.followed, loop.held, pass.turns) else []
  }

  /** A timer step that is due flushes what is pending and held; no other step does. */
  ghost predicate Sorts(loop: Loop, pass: Pass) {
    && (Flushes(loop.timer, pass.tick) ==> |pass.followed| == |pass.turns|)
    && (Flushing(loop, pass) ==>
          && UniqueIds(pass.followed)
          && TurnsTaken(pass.followed, loop.timer.pending, loop.timer.rescan, loop.held, pass.disks, pass.turns)
          && pass.tick.Fire?
          && (AllHeldBack(pass.followed, pass.turns) != {} ==> pass.tick.until.Some?))
  }

  // --- One turn of the loop --------------------------------------------------------------------

  /** What wakes the loop. */
  datatype Woken =
    | Told(heard: Heard)
    | Add(id: Id, vectorIndex: string, found: Walked)
    | Remove(id: Id)
    | Timeout

  ghost function LoopOf(watcher: Watcher): Loop
    reads watcher
  {
    Loop(watcher.Deadlines(), watcher.held)
  }

  lemma NothingHeldUnfollowed(held: set<Held>, followed: seq<Followed>, id: Id)
    requires HeldFollowed(held, followed) && !Follows(followed, id)
    ensures Without(held, id) == held
  {
  }

  /** The loop's body: whichever of an event, a command and the timer comes, what it does is a pass. */
  method Once(watcher: Watcher, woken: Woken, now: int, disks: nat -> Disk, walks: nat -> Walked)
    returns (ghost pass: Pass)
    requires watcher.Valid() && (watcher.last.Some? ==> watcher.last.value <= now)
    modifies watcher
    ensures watcher.Valid()
    ensures pass.tick.at == now && pass.followed == old(watcher.followed)
    ensures Sorts(old(LoopOf(watcher)), pass) && LoopOf(watcher) == After(old(LoopOf(watcher)), pass)
    // what follows a flush are the walks of what is polled or missing
    ensures old(watcher.log) + Effects(old(LoopOf(watcher)), pass) <= watcher.log
    ensures pass.unfollowed == if woken.Remove? then Some(woken.id) else None
    ensures woken.Timeout? ==> pass.tick.Fire? && !watcher.Overdue(now)
    ensures woken.Told? && woken.heard.Modified? ==>
              pass.tick == Event(now, Outside(woken.heard.paths, watcher.workspace), woken.heard.lost)
  {
    ghost var followed := watcher.followed;
    match woken
    case Told(heard) =>
      watcher.Heard(heard, now);
      pass := Pass(
        if heard.Modified? then Event(now, Outside(heard.paths, watcher.workspace), heard.lost) else Other(now),
        followed, disks, [], None);
    case Add(id, vectorIndex, found) =>
      watcher.Follow(id, vectorIndex, now, found);
      pass := Pass(Other(now), followed, disks, [], None);
    case Remove(id) =>
      if !Follows(followed, id) {
        NothingHeldUnfollowed(watcher.held, followed, id);
      }
      watcher.Unfollow(id);
      pass := Pass(Other(now), followed, disks, [], Some(id));
    case Timeout =>
      pass := Fired(watcher, now, disks, walks);
  }

  method Fired(watcher: Watcher, now: int, disks: nat -> Disk, walks: nat -> Walked) returns (ghost pass: Pass)
    requires watcher.Valid()
    modifies watcher
    ensures watcher.Valid() && !watcher.Overdue(now)
    ensures pass.tick.Fire? && pass.tick.at == now && pass.followed == old(watcher.followed) && pass.unfollowed.None?
    ensures Sorts(old(LoopOf(watcher)), pass) && LoopOf(watcher) == After(old(LoopOf(watcher)), pass)
    ensures old(watcher.log) + Effects(old(LoopOf(watcher)), pass) <= watcher.log
  {
    ghost var followed := watcher.followed;
    ghost var turns, flushed := watcher.Due(now, disks, walks);
    pass := Pass(Fire(now, watcher.heldUntil), followed, disks, turns, None);
  }

  // --- Runs ------------------------------------------------------------------------------------

  /** What a flush that takes no time holds back is due a quiet period after it. */
  predicate Instant(tick: Tick) {
    tick.Fire? && tick.until.Some? ==> tick.until.value <= tick.at + QUIET
  }

  /** `id` is followed at `i`, is there, covers `p`, and its turn comes to an ingest unless it is skipped. */
  ghost predicate Well(pass: Pass, id: Id, p: Path, i: nat) {
    && i < |pass.followed| == |pass.turns|
    && pass.followed[i].id == id && !pass.followed[i].state.Missing? && pass.followed[i].Covers(p)
    && (pass.turns[i].Skipped? || Succeeds(pass.turns[i]))
  }

  /** The passes are on time, each flush takes no time and goes well for `id`, which is followed throughout. */
  ghost predicate Runs(loop: Loop, clock: int, passes: seq<Pass>, id: Id, p: Path)
    decreases passes
  {
    passes != [] ==>
      && clock <= passes[0].tick.at
      && Prompt(loop.timer, passes[0].tick.at)
      && passes[0].unfollowed != Some(id)
      && Sorts(loop, passes[0]) && Instant(passes[0].tick)
      && (Flushing(loop, passes[0]) ==> exists i :: Well(passes[0], id, p, i))
      && Runs(After(loop, passes[0]), passes[0].tick.at, passes[1..], id, p)
  }

  ghost predicate GoesPast(passes: seq<Pass>, time: int) {
    exists i :: 0 <= i < |passes| && passes[i].tick.at > time
  }

  // --- What a path comes to --------------------------------------------------------------------

  /** What a changed path brings; a followed file brings itself while it is there. */
  function Brought(f: Followed, disk: Disk, p: Path): set<Path> {
    if !f.file then Brings(disk, f.dirs, p)
    else if disk.named(p) && disk.stillThere(p) then {p}
    else {}
  }

  function Taken(f: Followed, disk: Disk, p: Path): set<Path> {
    if !f.file then Takes(disk, f.dirs, p)
    else if disk.named(p) && !disk.stillThere(p) then {p}
    else {}
  }

  /** The next flush comes by `deadline`, and tells the ingest of `id` that `p` is gone. */
  ghost predicate ToldGoneNext(loop: Loop, passes: seq<Pass>, id: Id, p: Path, deadline: int)
    decreases passes
  {
    && passes != []
    && if Flushing(loop, passes[0]) then passes[0].tick.at <= deadline && ToldGone(Effects(loop, passes[0]), id, p)
       else ToldGoneNext(After(loop, passes[0]), passes[1..], id, p, deadline)
  }

  /**
   This flush, by `deadline`, tells the ingest of `id` of every file that `p` brings, and of every one that it takes
   with it -- or the next flush does, a quiet period later at most.
   */
  ghost predicate ToldHere(loop: Loop, passes: seq<Pass>, id: Id, p: Path, i: nat, deadline: int)
    requires passes != [] && i < |passes[0].followed|
  {
    var pass := passes[0];
    var f, disk, effects := pass.followed[i], pass.disks(i), Effects(loop, pass);
    && Flushing(loop, pass) && p in loop.timer.pending && pass.tick.at <= deadline && f.id == id
    && (forall q :: q in Brought(f, disk, p) ==> ToldChanged(effects, id, q))
    && (forall q :: q in Taken(f, disk, p) ==>
          ToldGone(effects, id, q) || ToldGoneNext(After(loop, pass), passes[1..], id, q, pass.tick.at + QUIET))
  }

  ghost predicate ToldBy(loop: Loop, passes: seq<Pass>, id: Id, p: Path, deadline: int)
    decreases passes
  {
    && passes != []
    && (|| (exists i :: 0 <= i < |passes[0].followed| && ToldHere(loop, passes, id, p, i, deadline))
        || ToldBy(After(loop, passes[0]), passes[1..], id, p, deadline))
  }

  // --- One flush -------------------------------------------------------------------------------

  /** A flush with `p` pending walks the path that covers it afresh, or sorts all that `p` brings and takes with it. */
  lemma PendingIsSorted(loop: Loop, pass: Pass, id: Id, p: Path, i: nat)
    requires Sorts(loop, pass) && Flushing(loop, pass) && Well(pass, id, p, i) && p in loop.timer.pending
    ensures Succeeds(pass.turns[i])
    ensures pass.turns[i].Sorted? ==>
              && Brought(pass.followed[i], pass.disks(i), p) <= pass.turns[i].changed
              && Taken(pass.followed[i], pass.disks(i), p) <= pass.turns[i].deleted
  {
    hide Brings, Takes;
    var f, was, turn := pass.followed[i], HeldFor(loop.held, id), pass.turns[i];
    assert TurnTaken(f, loop.timer.pending, loop.timer.rescan, was, pass.disks(i), turn);
    assert SomeCovered(f, loop.timer.pending);
    if turn.Sorted? && !f.file {
      SortedHasAll(f, loop.timer.pending, loop.timer.rescan, was, pass.disks(i), turn, p);
    }
  }

  lemma ChangedIsTold(loop: Loop, pass: Pass, i: nat, q: Path)
    requires Flushing(loop, pass) && i < |pass.followed|
    requires pass.turns[i].Sorted? && q in pass.turns[i].changed
    ensures ToldChanged(Effects(loop, pass), pass.followed[i].id, q)
  {
    SortedIsTold(pass.followed, loop.held, pass.turns, i);
    var told := IngestOf(pass.followed[i].id, HeldFor(loop.held, pass.followed[i].id), pass.turns[i]);
    assert told == Ingest(told.id, told.changed, told.deleted) && {q} <= told.changed && {} <= told.deleted;
  }

  /** A flush with something held for `id` tells of all of it. */
  lemma HeldIsTold(loop: Loop, pass: Pass, id: Id, p: Path, q: Path)
    requires Flushing(loop, pass) && Sorts(loop, pass) && Held(id, q) in loop.held && exists i :: Well(pass, id, p, i)
    ensures ToldGone(Effects(loop, pass), id, q)
  {
    var i: nat :| Well(pass, id, p, i);
    HeldTurn(loop, pass, id, p, i, q);
    SucceedsTells(pass.followed, loop.held, pass.turns, i, Held(id, q));
  }

  lemma HeldTurn(loop: Loop, pass: Pass, id: Id, p: Path, i: nat, q: Path)
    requires Flushing(loop, pass) && Sorts(loop, pass) && Held(id, q) in loop.held && Well(pass, id, p, i)
    ensures Succeeds(pass.turns[i])
  {
    assert Held(id, q).file in HeldFor(loop.held, id);
    assert TurnTaken(
      pass.followed[i], loop.timer.pending, loop.timer.rescan, HeldFor(loop.held, id), pass.disks(i), pass.turns[i]);
  }

  // --- By when a change is told ----------------------------------------------------------------

  lemma {:induction false} HeldIsToldNext(
      loop: Loop, clock: int, passes: seq<Pass>, id: Id, p: Path, q: Path, deadline: int)
    requires Runs(loop, clock, passes, id, p) && GoesPast(passes, deadline)
    requires Held(id, q) in loop.held && loop.timer.heldUntil.Some? && loop.timer.heldUntil.value <= deadline
    ensures ToldGoneNext(loop, passes, id, q, deadline)
    decreases passes
  {
    var pass := passes[0];
    if Flushing(loop, pass) {
      HeldIsTold(loop, pass, id, p, q);
    } else {
      GoesOn(passes, deadline);
      HeldIsToldNext(After(loop, pass), pass.tick.at, passes[1..], id, p, q, deadline);
    }
  }

  lemma GoesOn(passes: seq<Pass>, time: int)
    requires GoesPast(passes, time) && passes[0].tick.at <= time
    ensures GoesPast(passes[1..], time)
  {
    var i :| 0 <= i < |passes| && passes[i].tick.at > time;
    assert passes[1..][i - 1] == passes[i];
  }

  lemma GoesPastEarlier(passes: seq<Pass>, time: int, later: int)
    requires GoesPast(passes, later) && time <= later
    ensures GoesPast(passes, time)
  {
  }

  /** A flush by `deadline` that finds `q` gone tells of it, or holds it back and the next one does. */
  lemma GoneIsTold(loop: Loop, passes: seq<Pass>, id: Id, p: Path, q: Path, i: nat, deadline: int)
    requires passes != [] && Runs(loop, passes[0].tick.at, passes, id, p) && GoesPast(passes, deadline + QUIET)
    requires Flushing(loop, passes[0]) && passes[0].tick.at <= deadline
    requires Well(passes[0], id, p, i) && passes[0].turns[i].Sorted? && q in passes[0].turns[i].deleted
    ensures || ToldGone(Effects(loop, passes[0]), id, q)
            || ToldGoneNext(After(loop, passes[0]), passes[1..], id, q, passes[0].tick.at + QUIET)
  {
    hide TurnsTaken, AllEffects, AllHeldBack, ToldGoneNext, StartsWith, UniqueIds;
    var pass := passes[0];
    GoneIsIngestedOrHeld(pass.followed, loop.held, pass.turns, i, q);
    if pass.turns[i].changed == {} {
      GoesOn(passes, deadline + QUIET);
      GoesPastEarlier(passes[1..], pass.tick.at + QUIET, deadline + QUIET);
      HeldIsToldNext(After(loop, pass), pass.tick.at, passes[1..], id, p, q, pass.tick.at + QUIET);
    } else {
      var gone :| Ingest(id, pass.turns[i].changed, gone) in Effects(loop, pass) && q in gone;
      assert {} <= pass.turns[i].changed && {q} <= gone;
    }
  }

  lemma FlushTells(loop: Loop, passes: seq<Pass>, id: Id, p: Path, deadline: int)
    requires passes != [] && Runs(loop, passes[0].tick.at, passes, id, p) && GoesPast(passes, deadline + QUIET)
    requires Flushing(loop, passes[0]) && p in loop.timer.pending && passes[0].tick.at <= deadline
    ensures exists i :: 0 <= i < |passes[0].followed| && ToldHere(loop, passes, id, p, i, deadline)
  {
    hide Sorts, After, ToldGoneNext, Brought, Taken, GoesPast, AllEffects;
    var pass := passes[0];
    var i: nat :| Well(pass, id, p, i);
    PendingIsSorted(loop, pass, id, p, i);
    if pass.turns[i].Rewalked? {
      RewalkedIsTold(pass.followed, loop.held, pass.turns, i);
    } else {
      forall q | q in pass.turns[i].changed ensures ToldChanged(Effects(loop, pass), id, q) {
        ChangedIsTold(loop, pass, i, q);
      }
      forall q | q in pass.turns[i].deleted
        ensures || ToldGone(Effects(loop, pass), id, q)
                || ToldGoneNext(After(loop, pass), passes[1..], id, q, pass.tick.at + QUIET)
      {
        GoneIsTold(loop, passes, id, p, q, i, deadline);
      }
    }
    assert ToldHere(loop, passes, id, p, i, deadline);
  }

  lemma {:induction false} WaitingIsTold(loop: Loop, clock: int, passes: seq<Pass>, id: Id, p: Path, heard: int)
    requires Sound(loop.timer, clock) && Runs(loop, clock, passes, id, p) && Waits(loop.timer, p, heard)
    requires GoesPast(passes, heard + LONGEST + QUIET)
    ensures ToldBy(loop, passes, id, p, heard + LONGEST)
    decreases passes
  {
    hide Effects, TurnsTaken, AllHeldBack, ToldHere, Without, UniqueIds;
    var pass := passes[0];
    assert pass.tick.at <= heard + LONGEST;
    if Flushing(loop, pass) {
      FlushTells(loop, passes, id, p, heard + LONGEST);
    } else {
      TickKeeps(loop.timer, clock, pass.tick);
      GoesOn(passes, heard + LONGEST + QUIET);
      WaitingIsTold(After(loop, pass), pass.tick.at, passes[1..], id, p, heard);
    }
  }

  /**
   However many events follow a path that is heard of, what it brings is told to an ingest by the longest wait after it,
   and what it takes with it by a quiet period after that: the file itself, or all the files of a directory.
   */
  lemma HeardIsTold(loop: Loop, clock: int, passes: seq<Pass>, id: Id, p: Path)
    requires Sound(loop.timer, clock) && Runs(loop, clock, passes, id, p)
    requires passes != [] && passes[0].tick.Event? && p in passes[0].tick.paths
    requires GoesPast(passes, passes[0].tick.at + LONGEST + QUIET)
    ensures ToldBy(After(loop, passes[0]), passes[1..], id, p, passes[0].tick.at + LONGEST)
  {
    var heard := passes[0].tick.at;
    TickKeeps(loop.timer, clock, passes[0].tick);
    GoesOn(passes, heard + LONGEST + QUIET);
    WaitingIsTold(After(loop, passes[0]), heard, passes[1..], id, p, heard);
  }

  // --- By what the file system answers ---------------------------------------------------------

  /**
   `q` is there for whoever looks for what `p` is: a file that lists, one in a directory that does, or a followed
   file.
   */
  predicate Shows(f: Followed, disk: Disk, p: Path, q: Path) {
    if f.file then q == p && disk.named(p) && disk.stillThere(p)
    else
      && IsListed(disk, f.dirs, p)
      && (|| (q == p && !disk.isDir(p) && disk.named(p))
          || (disk.isDir(p) && disk.inside(p).Some? && ListsIn(disk, p, q)))
  }

  /**
   `q` is gone with `p`: a file no longer there, one recorded under a watched directory that is gone, or a followed
   file.
   */
  predicate Lacks(f: Followed, disk: Disk, p: Path, q: Path) {
    if f.file then q == p && disk.named(p) && !disk.stillThere(p)
    else
      && IsAbsent(disk, f.dirs, p)
      && (|| (q == p && p !in f.dirs && disk.named(p) && disk.walkedKind(p))
          || (p in f.dirs && RecordsIn(disk, p, q)))
  }

  lemma BroughtIsShown(f: Followed, disk: Disk, p: Path, q: Path)
    ensures q in Brought(f, disk, p) <==> Shows(f, disk, p, q)
    ensures q in Taken(f, disk, p) <==> Lacks(f, disk, p, q)
  {
    hide IsListed, IsAbsent, KindOf;
    KindExactly(disk, f.dirs, p);
  }

  /** Whenever the loop flushes, `q` is there for whoever looks for what `p` is. */
  ghost predicate ShownThroughout(loop: Loop, passes: seq<Pass>, id: Id, p: Path, q: Path)
    decreases passes
  {
    passes != [] ==>
      && (Flushing(loop, passes[0]) ==>
            forall i :: 0 <= i < |passes[0].followed| && passes[0].followed[i].id == id ==>
              Shows(passes[0].followed[i], passes[0].disks(i), p, q))
      && ShownThroughout(After(loop, passes[0]), passes[1..], id, p, q)
  }

  ghost predicate LackedThroughout(loop: Loop, passes: seq<Pass>, id: Id, p: Path, q: Path)
    decreases passes
  {
    passes != [] ==>
      && (Flushing(loop, passes[0]) ==>
            forall i :: 0 <= i < |passes[0].followed| && passes[0].followed[i].id == id ==>
              Lacks(passes[0].followed[i], passes[0].disks(i), p, q))
      && LackedThroughout(After(loop, passes[0]), passes[1..], id, p, q)
  }

  /** Some flush by `deadline` tells the ingest of `id` that `q` has changed. */
  ghost predicate ChangedBy(loop: Loop, passes: seq<Pass>, id: Id, q: Path, deadline: int)
    decreases passes
  {
    && passes != []
    && (|| (Flushing(loop, passes[0]) && passes[0].tick.at <= deadline && ToldChanged(Effects(loop, passes[0]), id, q))
        || ChangedBy(After(loop, passes[0]), passes[1..], id, q, deadline))
  }

  ghost predicate GoneBy(loop: Loop, passes: seq<Pass>, id: Id, q: Path, deadline: int)
    decreases passes
  {
    && passes != []
    && (|| (Flushing(loop, passes[0]) && passes[0].tick.at <= deadline && ToldGone(Effects(loop, passes[0]), id, q))
        || GoneBy(After(loop, passes[0]), passes[1..], id, q, deadline))
  }

  lemma {:induction false} ShownIsChanged(loop: Loop, passes: seq<Pass>, id: Id, p: Path, q: Path, deadline: int)
    requires ToldBy(loop, passes, id, p, deadline) && ShownThroughout(loop, passes, id, p, q)
    ensures ChangedBy(loop, passes, id, q, deadline)
    decreases passes
  {
    hide Flushing, After, Effects, Shows, Brought, Taken, ToldChanged, ToldGone, ToldGoneNext;
    var pass := passes[0];
    if i :| 0 <= i < |pass.followed| && ToldHere(loop, passes, id, p, i, deadline) {
      BroughtIsShown(pass.followed[i], pass.disks(i), p, q);
    } else {
      ShownIsChanged(After(loop, pass), passes[1..], id, p, q, deadline);
    }
  }

  lemma {:induction false} NextIsGone(loop: Loop, passes: seq<Pass>, id: Id, q: Path, deadline: int, later: int)
    requires ToldGoneNext(loop, passes, id, q, deadline) && deadline <= later
    ensures GoneBy(loop, passes, id, q, later)
    decreases passes
  {
    hide Flushing, After, Effects, ToldGone;
    if !Flushing(loop, passes[0]) {
      NextIsGone(After(loop, passes[0]), passes[1..], id, q, deadline, later);
    }
  }

  lemma {:induction false} LackedIsGone(loop: Loop, passes: seq<Pass>, id: Id, p: Path, q: Path, deadline: int)
    requires ToldBy(loop, passes, id, p, deadline) && LackedThroughout(loop, passes, id, p, q)
    ensures GoneBy(loop, passes, id, q, deadline + QUIET)
    decreases passes
  {
    hide Flushing, After, Effects, Lacks, Brought, Taken, ToldChanged, ToldGone, ToldGoneNext;
    var pass := passes[0];
    if i :| 0 <= i < |pass.followed| && ToldHere(loop, passes, id, p, i, deadline) {
      BroughtIsShown(pass.followed[i], pass.disks(i), p, q);
      if !ToldGone(Effects(loop, pass), id, q) {
        NextIsGone(After(loop, pass), passes[1..], id, q, pass.tick.at + QUIET, deadline + QUIET);
      }
    } else {
      LackedIsGone(After(loop, pass), passes[1..], id, p, q, deadline);
    }
  }

  /**
   A file that was modified or made, heard of itself or by its directory, is told to an ingest as changed within the
   longest wait: while the listing of its directory shows it, a file and no directory, whenever the loop looks.
   */
  lemma ShownIsTold(loop: Loop, clock: int, passes: seq<Pass>, id: Id, p: Path, q: Path)
    requires Sound(loop.timer, clock) && Runs(loop, clock, passes, id, p)
    requires passes != [] && passes[0].tick.Event? && p in passes[0].tick.paths
    requires GoesPast(passes, passes[0].tick.at + LONGEST + QUIET)
    requires ShownThroughout(After(loop, passes[0]), passes[1..], id, p, q)
    ensures ChangedBy(After(loop, passes[0]), passes[1..], id, q, passes[0].tick.at + LONGEST)
  {
    hide ToldBy, ChangedBy, ShownThroughout, Runs;
    HeardIsTold(loop, clock, passes, id, p);
    ShownIsChanged(After(loop, passes[0]), passes[1..], id, p, q, passes[0].tick.at + LONGEST);
  }

  /** And one that is gone, itself or with its directory, is told as gone within a quiet period more. */
  lemma LackedIsTold(loop: Loop, clock: int, passes: seq<Pass>, id: Id, p: Path, q: Path)
    requires Sound(loop.timer, clock) && Runs(loop, clock, passes, id, p)
    requires passes != [] && passes[0].tick.Event? && p in passes[0].tick.paths
    requires GoesPast(passes, passes[0].tick.at + LONGEST + QUIET)
    requires LackedThroughout(After(loop, passes[0]), passes[1..], id, p, q)
    ensures GoneBy(After(loop, passes[0]), passes[1..], id, q, passes[0].tick.at + LONGEST + QUIET)
  {
    hide ToldBy, GoneBy, LackedThroughout, Runs;
    HeardIsTold(loop, clock, passes, id, p);
    LackedIsGone(After(loop, passes[0]), passes[1..], id, p, q, passes[0].tick.at + LONGEST);
  }

  // --- What calls for a walk -------------------------------------------------------------------

  /** Since no later than `heard`, events have been lost or `p`, which says what a walk leaves out, has changed. */
  ghost predicate WalkDue(timer: Timer, p: Path, lost: bool, heard: int) {
    && timer.first.Some? && timer.first.value <= heard
    && if lost then timer.rescan else p in timer.pending && p.Child? && p.name == GITIGNORE
  }

  /** Some flush by `deadline` ingests all there is under `id`. */
  ghost predicate WalkedBy(loop: Loop, passes: seq<Pass>, id: Id, deadline: int)
    decreases passes
  {
    && passes != []
    && (|| (Flushing(loop, passes[0]) && passes[0].tick.at <= deadline && WalkedAfresh(Effects(loop, passes[0]), id))
        || WalkedBy(After(loop, passes[0]), passes[1..], id, deadline))
  }

  lemma FlushWalks(loop: Loop, pass: Pass, id: Id, p: Path, lost: bool, heard: int)
    requires Flushing(loop, pass) && Sorts(loop, pass) && WalkDue(loop.timer, p, lost, heard)
    requires exists i :: Well(pass, id, p, i)
    ensures WalkedAfresh(Effects(loop, pass), id)
  {
    var i: nat :| Well(pass, id, p, i);
    var f, was := pass.followed[i], HeldFor(loop.held, id);
    assert TurnTaken(f, loop.timer.pending, loop.timer.rescan, was, pass.disks(i), pass.turns[i]);
    assert lost || SomeIgnores(f, loop.timer.pending);
    assert lost || SomeCovered(f, loop.timer.pending);
    RewalkedIsTold(pass.followed, loop.held, pass.turns, i);
  }

  lemma {:induction false} WalkDueIsDone(
      loop: Loop, clock: int, passes: seq<Pass>, id: Id, p: Path, lost: bool, heard: int)
    requires Sound(loop.timer, clock) && Runs(loop, clock, passes, id, p) && WalkDue(loop.timer, p, lost, heard)
    requires GoesPast(passes, heard + LONGEST)
    ensures WalkedBy(loop, passes, id, heard + LONGEST)
    decreases passes
  {
    hide Effects, TurnsTaken, AllHeldBack, Without, UniqueIds;
    var pass := passes[0];
    assert pass.tick.at <= heard + LONGEST;
    if Flushing(loop, pass) {
      FlushWalks(loop, pass, id, p, lost, heard);
    } else {
      TickKeeps(loop.timer, clock, pass.tick);
      GoesOn(passes, heard + LONGEST);
      WalkDueIsDone(After(loop, pass), pass.tick.at, passes[1..], id, p, lost, heard);
    }
  }

  /**
   Once events are lost, or a `.gitignore` under it is heard of, a followed path is walked afresh and all there is
   ingested within the longest wait.
   */
  lemma LostOrIgnoreIsWalked(loop: Loop, clock: int, passes: seq<Pass>, id: Id, p: Path)
    requires Sound(loop.timer, clock) && Runs(loop, clock, passes, id, p)
    requires passes != [] && passes[0].tick.Event?
    requires passes[0].tick.lost || (p in passes[0].tick.paths && p.Child? && p.name == GITIGNORE)
    requires GoesPast(passes, passes[0].tick.at + LONGEST)
    ensures WalkedBy(After(loop, passes[0]), passes[1..], id, passes[0].tick.at + LONGEST)
  {
    var heard := passes[0].tick.at;
    TickKeeps(loop.timer, clock, passes[0].tick);
    GoesOn(passes, heard + LONGEST);
    WalkDueIsDone(After(loop, passes[0]), heard, passes[1..], id, p, passes[0].tick.lost, heard);
  }

  // --- The halves of a move --------------------------------------------------------------------

  /** The next flush comes by `deadline`, and tells one ingest of `id` of all that `created` brings and of `gone`. */
  ghost predicate MovedNext(loop: Loop, passes: seq<Pass>, id: Id, created: Path, gone: set<Path>, deadline: int)
    decreases passes
  {
    && passes != []
    && if !Flushing(loop, passes[0]) then MovedNext(After(loop, passes[0]), passes[1..], id, created, gone, deadline)
       else
         && passes[0].tick.at <= deadline
         && exists i :: 0 <= i < |passes[0].followed| && MovedHere(loop, passes[0], id, created, gone, i)
  }

  ghost predicate MovedHere(loop: Loop, pass: Pass, id: Id, created: Path, gone: set<Path>, i: nat)
    requires i < |pass.followed|
  {
    && pass.followed[i].id == id
    && ToldTogether(Effects(loop, pass), id, Brought(pass.followed[i], pass.disks(i), created), gone)
  }

  lemma FlushMoves(loop: Loop, pass: Pass, id: Id, created: Path, gone: set<Path>, i: nat)
    requires Flushing(loop, pass) && Sorts(loop, pass) && Well(pass, id, created, i) && created in loop.timer.pending
    requires gone != {} && gone <= HeldFor(loop.held, id)
    ensures MovedHere(loop, pass, id, created, gone, i)
  {
    hide Brought, AllEffects, AllHeldBack, StartsWith;
    PendingIsSorted(loop, pass, id, created, i);
    if pass.turns[i].Rewalked? {
      RewalkedIsTold(pass.followed, loop.held, pass.turns, i);
    } else {
      SortedIsTold(pass.followed, loop.held, pass.turns, i);
      var told := IngestOf(id, HeldFor(loop.held, id), pass.turns[i]);
      assert told == Ingest(id, told.changed, told.deleted) && gone <= told.deleted;
    }
  }

  /**
   What was found gone a flush ago and what has been heard of since under the same followed path are told to one ingest
   by the next flush, when the hold ends at the latest: a file that moved, or a directory with all that is in it.
   */
  lemma {:induction false} MoveIsTold(
      loop: Loop, clock: int, passes: seq<Pass>, id: Id, created: Path, gone: set<Path>, deadline: int)
    requires Runs(loop, clock, passes, id, created) && created in loop.timer.pending
    requires gone != {} && gone <= HeldFor(loop.held, id)
    requires loop.timer.heldUntil.Some? && loop.timer.heldUntil.value <= deadline && GoesPast(passes, deadline)
    ensures MovedNext(loop, passes, id, created, gone, deadline)
    decreases passes
  {
    var pass := passes[0];
    if Flushing(loop, pass) {
      var i: nat :| Well(pass, id, created, i);
      FlushMoves(loop, pass, id, created, gone, i);
    } else {
      GoesOn(passes, deadline);
      MoveIsTold(After(loop, pass), pass.tick.at, passes[1..], id, created, gone, deadline);
    }
  }

  /** `created` is heard of before the next flush. */
  ghost predicate HeardBeforeFlush(loop: Loop, passes: seq<Pass>, created: Path)
    decreases passes
  {
    && passes != [] && !Flushing(loop, passes[0])
    && (|| (passes[0].tick.Event? && created in passes[0].tick.paths)
        || HeardBeforeFlush(After(loop, passes[0]), passes[1..], created))
  }

  lemma {:induction false} HoldMeets(
      loop: Loop, clock: int, passes: seq<Pass>, id: Id, created: Path, gone: set<Path>, deadline: int)
    requires Runs(loop, clock, passes, id, created) && HeardBeforeFlush(loop, passes, created)
    requires gone != {} && gone <= HeldFor(loop.held, id)
    requires loop.timer.heldUntil.Some? && loop.timer.heldUntil.value <= deadline && GoesPast(passes, deadline)
    ensures MovedNext(loop, passes, id, created, gone, deadline)
    decreases passes
  {
    var pass := passes[0];
    GoesOn(passes, deadline);
    if pass.tick.Event? && created in pass.tick.paths {
      MoveIsTold(After(loop, pass), pass.tick.at, passes[1..], id, created, gone, deadline);
    } else {
      HoldMeets(After(loop, pass), pass.tick.at, passes[1..], id, created, gone, deadline);
    }
  }

  /**
   The halves of a move over a run: all that a lost path takes with it at a flush that finds nothing new, and all that a
   path heard of before the next flush brings, are told to one ingest within a quiet period.
   */
  lemma LostThenCreated(loop: Loop, clock: int, passes: seq<Pass>, i: nat, id: Id, lost: Path, created: Path)
    requires passes != [] && Runs(loop, clock, passes, id, created)
    requires Flushing(loop, passes[0]) && i < |passes[0].followed| && passes[0].followed[i].id == id
    requires !passes[0].followed[i].file && lost in loop.timer.pending && passes[0].followed[i].Covers(lost)
    requires passes[0].turns[i].Sorted? && passes[0].turns[i].changed == {}
    requires HeardBeforeFlush(After(loop, passes[0]), passes[1..], created)
    requires GoesPast(passes, passes[0].tick.at + QUIET)
    ensures var gone := Takes(passes[0].disks(i), passes[0].followed[i].dirs, lost);
            gone != {} ==> MovedNext(After(loop, passes[0]), passes[1..], id, created, gone, passes[0].tick.at + QUIET)
  {
    hide AllEffects, AllHeldBack, MovedNext, StartsWith, Takes, UniqueIds, HeardBeforeFlush;
    var pass := passes[0];
    var gone, flushed := Takes(pass.disks(i), pass.followed[i].dirs, lost), After(loop, pass);
    TakenIsHeld(pass.followed, loop.timer.pending, loop.timer.rescan, loop.held, pass.disks, pass.turns, i, lost);
    if gone != {} {
      var q :| q in gone;
      assert q in HeldFor(flushed.held, id);
      GoesOn(passes, pass.tick.at + QUIET);
      HoldMeets(flushed, pass.tick.at, passes[1..], id, created, gone, pass.tick.at + QUIET);
    }
  }
}
