/**
 What the watcher's one-period hold is for (`flush` in `crates/cli/src/watch.rs`): a file that moves is
 heard of as one gone and one created, and both reach one ingest even when the second is heard of a
 flush later. These are about whole flushes, by the turn each followed path took in them.
 */
module Moves {
  import opened Watches
  import opened Watcher

  /** What `turn` tells an ingest of `id`, `was` being the deletions held since the flush before. */
  function IngestOf(id: Id, was: set<Path>, turn: Turn): Effect
    requires turn.Sorted?
  {
    Ingest(id, turn.changed, if HalfMove(turn) then was else was + turn.deleted)
  }

  /** All there is under `id` was ingested afresh. */
  ghost predicate WalkedAfresh(effects: seq<Effect>, id: Id) {
    exists files :: Walk(id, files) in effects
  }

  /** One ingest of `id` is told of `brought` as changed and of `taken` as gone, or has all there is. */
  ghost predicate ToldTogether(effects: seq<Effect>, id: Id, brought: set<Path>, taken: set<Path>) {
    || WalkedAfresh(effects, id)
    || exists changed, gone :: Ingest(id, changed, gone) in effects && brought <= changed && taken <= gone
  }

  ghost predicate ToldChanged(effects: seq<Effect>, id: Id, p: Path) {
    ToldTogether(effects, id, {p}, {})
  }

  ghost predicate ToldGone(effects: seq<Effect>, id: Id, p: Path) {
    ToldTogether(effects, id, {}, {p})
  }

  /** A turn that comes to an ingest, of the path afresh or of what was sorted. */
  predicate Succeeds(turn: Turn) {
    turn.Sorted? || (turn.Rewalked? && Ingested(turn.found))
  }

  lemma {:induction false} EffectsAt(followed: seq<Followed>, held: set<Held>, turns: seq<Turn>, i: nat)
    requires i < |followed| == |turns|
    ensures forall e :: e in EffectsOf(followed[i].id, HeldFor(held, followed[i].id), turns[i]) ==>
        e in AllEffects(followed, held, turns)
  {
    var n := |turns| - 1;
    if i < n {
      EffectsAt(followed[..n], held, turns[..n], i);
    }
  }

  lemma {:induction false} HeldBackAt(followed: seq<Followed>, turns: seq<Turn>, h: Held)
    requires |followed| == |turns|
    ensures h in AllHeldBack(followed, turns)
        <==> exists i :: 0 <= i < |turns| && h in HeldBack(followed[i].id, turns[i])
  {
    if turns != [] {
      var n := |turns| - 1;
      HeldBackAt(followed[..n], turns[..n], h);
      if h in AllHeldBack(followed[..n], turns[..n]) {
        var i :| 0 <= i < n && h in HeldBack(followed[..n][i].id, turns[..n][i]);
        assert h in HeldBack(followed[i].id, turns[i]);
      }
      if i :| 0 <= i < n && h in HeldBack(followed[i].id, turns[i]) {
        assert h in HeldBack(followed[..n][i].id, turns[..n][i]);
      }
    }
  }

  /** What a sorted turn tells, it tells in one ingest -- if it tells anything. */
  lemma SortedIsTold(followed: seq<Followed>, held: set<Held>, turns: seq<Turn>, i: nat)
    requires i < |followed| == |turns| && turns[i].Sorted?
    requires !HalfMove(turns[i]) || HeldFor(held, followed[i].id) != {}
    ensures IngestOf(followed[i].id, HeldFor(held, followed[i].id), turns[i]) in AllEffects(followed, held, turns)
  {
    EffectsAt(followed, held, turns, i);
    var effects := EffectsOf(followed[i].id, HeldFor(held, followed[i].id), turns[i]);
    assert effects == [IngestOf(followed[i].id, HeldFor(held, followed[i].id), turns[i])];
    assert effects[0] in effects;
  }

  lemma RewalkedIsTold(followed: seq<Followed>, held: set<Held>, turns: seq<Turn>, i: nat)
    requires i < |followed| == |turns| && turns[i].Rewalked? && Ingested(turns[i].found)
    ensures WalkedAfresh(AllEffects(followed, held, turns), followed[i].id)
  {
    EffectsAt(followed, held, turns, i);
    var effects := EffectsOf(followed[i].id, HeldFor(held, followed[i].id), turns[i]);
    assert effects[0] in effects;
  }

  /** What a flush did for `id` is what the turn of the one path followed as `id` did. */
  lemma {:induction false} EffectsOfOne(followed: seq<Followed>, held: set<Held>, turns: seq<Turn>, i: nat, e: Effect)
    requires i < |followed| == |turns| && UniqueIds(followed)
    requires e in AllEffects(followed, held, turns) && e.id == followed[i].id
    ensures e in EffectsOf(followed[i].id, HeldFor(held, followed[i].id), turns[i])
  {
    var n := |turns| - 1;
    var last := EffectsOf(followed[n].id, HeldFor(held, followed[n].id), turns[n]);
    assert e in AllEffects(followed[..n], held, turns[..n]) || e in last;
    if i < n {
      assert e !in last;
      EffectsOfOne(followed[..n], held, turns[..n], i, e);
    } else if e in AllEffects(followed[..n], held, turns[..n]) {
      EffectsFollowed(followed[..n], held, turns[..n], e);
    }
  }

  lemma {:induction false} EffectsFollowed(followed: seq<Followed>, held: set<Held>, turns: seq<Turn>, e: Effect)
    requires |followed| == |turns| && e in AllEffects(followed, held, turns)
    ensures Follows(followed, e.id)
  {
    var n := |turns| - 1;
    if e in AllEffects(followed[..n], held, turns[..n]) {
      EffectsFollowed(followed[..n], held, turns[..n], e);
      var i :| 0 <= i < n && followed[..n][i].id == e.id;
      assert followed[i].id == e.id;
    } else {
      assert e in EffectsOf(followed[n].id, HeldFor(held, followed[n].id), turns[n]);
      assert followed[n].id == e.id;
    }
  }

  /**
   A deletion held back is told to an ingest by the very next flush, whatever else is or is not pending -- exactly
   when that flush's turn for its path comes to an ingest. When it does not, the path being missing, a walk or the
   sort having failed, the deletion is held no longer.
   */
  lemma HeldReachesNextFlush(
      followed: seq<Followed>, changes: set<Path>, rescanning: bool, held: set<Held>, disks: nat -> Disk,
      turns: seq<Turn>,
      i: nat, h: Held)
    requires TurnsTaken(followed, changes, rescanning, held, disks, turns) && UniqueIds(followed)
    requires i < |followed| && followed[i].id == h.id && h in held
    ensures ToldGone(AllEffects(followed, held, turns), h.id, h.file) <==> Succeeds(turns[i])
    ensures !Succeeds(turns[i]) ==> h !in AllHeldBack(followed, turns)
    ensures turns[i].Skipped? <==> followed[i].state.Missing?
  {
    hide UniqueIds;
    var was := HeldFor(held, h.id);
    assert h.file in was;
    assert TurnTaken(followed[i], changes, rescanning, was, disks(i), turns[i]);
    if Succeeds(turns[i]) {
      SucceedsTells(followed, held, turns, i, h);
    } else {
      FailsTellsNothing(followed, held, turns, i, h);
    }
  }

  lemma SucceedsTells(followed: seq<Followed>, held: set<Held>, turns: seq<Turn>, i: nat, h: Held)
    requires i < |followed| == |turns| && followed[i].id == h.id && h in held && Succeeds(turns[i])
    ensures ToldGone(AllEffects(followed, held, turns), h.id, h.file)
  {
    var was := HeldFor(held, h.id);
    assert h.file in was;
    if turns[i].Sorted? {
      SortedIsTold(followed, held, turns, i);
      var told := IngestOf(h.id, was, turns[i]);
      assert told == Ingest(h.id, told.changed, told.deleted) && {} <= told.changed && {h.file} <= told.deleted;
    } else {
      RewalkedIsTold(followed, held, turns, i);
    }
  }

  lemma FailsTellsNothing(followed: seq<Followed>, held: set<Held>, turns: seq<Turn>, i: nat, h: Held)
    requires i < |followed| == |turns| && UniqueIds(followed) && followed[i].id == h.id && !Succeeds(turns[i])
    ensures !ToldGone(AllEffects(followed, held, turns), h.id, h.file) && h !in AllHeldBack(followed, turns)
  {
    var effects := AllEffects(followed, held, turns);
    forall e | e in effects && e.id == h.id ensures e.Look? {
      EffectsOfOne(followed, held, turns, i, e);
    }
    HeldBackAt(followed, turns, h);
  }

  /** So one is lost when events were lost and the walk that makes up for them fails. */
  lemma HeldIsLost(h: Held, disk: Disk) returns (followed: seq<Followed>, turns: seq<Turn>)
    requires disk.afresh == Unreadable(false)
    ensures UniqueIds(followed) && HeldFollowed({h}, followed) && TurnsTaken(followed, {}, true, {h}, _ => disk, turns)
    ensures !ToldGone(AllEffects(followed, {h}, turns), h.id, h.file) && h !in AllHeldBack(followed, turns)
  {
    followed := [Followed(h.id, "", false, {}, Watching, 0)];
    turns := [Rewalked(Unreadable(false))];
    assert followed[0].id == h.id;
    HeldReachesNextFlush(followed, {}, true, {h}, _ => disk, turns, 0, h);
  }

  /** A file gone is ingested by the flush that sorted it, or held back by it. */
  lemma GoneIsIngestedOrHeld(followed: seq<Followed>, held: set<Held>, turns: seq<Turn>, i: nat, file: Path)
    requires i < |followed| == |turns| && turns[i].Sorted? && file in turns[i].deleted
    ensures if turns[i].changed == {} then
              Held(followed[i].id, file) in AllHeldBack(followed, turns)
            else
              exists gone :: Ingest(followed[i].id, turns[i].changed, gone) in AllEffects(followed, held, turns)
                  && file in gone
  {
    var id, turn := followed[i].id, turns[i];
    if HalfMove(turn) {
      assert Held(id, file) in HeldBack(id, turn);
      HeldBackAt(followed, turns, Held(id, file));
    } else {
      var effects := EffectsOf(id, HeldFor(held, id), turn);
      EffectsAt(followed, held, turns, i);
      assert effects[0] in effects;
    }
  }

  /** What is held back is exactly what was gone with nothing new beside it. */
  lemma HeldExactly(followed: seq<Followed>, turns: seq<Turn>, h: Held)
    requires |followed| == |turns|
    ensures h in AllHeldBack(followed, turns) <==>
            exists i :: 0 <= i < |turns| && followed[i].id == h.id && turns[i].Sorted? && turns[i].changed == {}
                && h.file in turns[i].deleted
  {
    HeldBackAt(followed, turns, h);
    if i :|
      && 0 <= i < |turns| && followed[i].id == h.id
      && turns[i].Sorted? && turns[i].changed == {} && h.file in turns[i].deleted
    {
      assert h in HeldBack(followed[i].id, turns[i]);
    }
  }

  /**
   A sorted turn has all that a changed path brings among the changed, and all that it takes with it among the
   deleted.
   */
  lemma SortedHasAll(f: Followed, changes: set<Path>, rescanning: bool, was: set<Path>, disk: Disk, turn: Turn, p: Path)
    requires TurnTaken(f, changes, rescanning, was, disk, turn) && turn.Sorted? && !f.file && p in changes
        && f.Covers(p)
    ensures Brings(disk, f.dirs, p) <= turn.changed && Takes(disk, f.dirs, p) <= turn.deleted
  {
    hide Brings, Takes;
    assert p in CoveredBy(f, changes);
  }

  /**
   The two halves of a move meet, whether of a file or of a directory with all that is in it: what is held since the
   flush before, and what a path brings that is heard of as created before this one under the same followed
   directory, are told to one and the same ingest.
   */
  lemma BothHalvesMeet(
      followed: seq<Followed>, changes: set<Path>, rescanning: bool, held: set<Held>, disks: nat -> Disk,
      turns: seq<Turn>,
      i: nat, created: Path)
    requires TurnsTaken(followed, changes, rescanning, held, disks, turns)
    requires i < |followed| && turns[i].Sorted? && HeldFor(held, followed[i].id) != {}
    requires !followed[i].file && created in changes && followed[i].Covers(created)
    ensures exists changed, gone ::
              && Ingest(followed[i].id, changed, gone) in AllEffects(followed, held, turns)
              && Brings(disks(i), followed[i].dirs, created) <= changed
              && HeldFor(held, followed[i].id) <= gone
  {
    var id, turn, was := followed[i].id, turns[i], HeldFor(held, followed[i].id);
    assert TurnTaken(followed[i], changes, rescanning, was, disks(i), turn);
    SortedHasAll(followed[i], changes, rescanning, was, disks(i), turn, created);
    SortedIsTold(followed, held, turns, i);
    var told := IngestOf(id, was, turn);
    assert told == Ingest(id, told.changed, told.deleted) && was <= told.deleted;
  }

  /** So they do when both are heard of before one flush. */
  lemma BothHalvesAtOnce(
      followed: seq<Followed>, changes: set<Path>, rescanning: bool, held: set<Held>, disks: nat -> Disk,
      turns: seq<Turn>,
      i: nat, lost: Path, created: Path)
    requires TurnsTaken(followed, changes, rescanning, held, disks, turns)
    requires i < |followed| && turns[i].Sorted? && !followed[i].file
    requires lost in changes && followed[i].Covers(lost) && created in changes && followed[i].Covers(created)
    requires Brings(disks(i), followed[i].dirs, created) != {}
    ensures exists changed, gone ::
              && Ingest(followed[i].id, changed, gone) in AllEffects(followed, held, turns)
              && Brings(disks(i), followed[i].dirs, created) <= changed
              && Takes(disks(i), followed[i].dirs, lost) <= gone
  {
    var id, turn, was := followed[i].id, turns[i], HeldFor(held, followed[i].id);
    assert TurnTaken(followed[i], changes, rescanning, was, disks(i), turn);
    SortedHasAll(followed[i], changes, rescanning, was, disks(i), turn, lost);
    SortedHasAll(followed[i], changes, rescanning, was, disks(i), turn, created);
    SortedIsTold(followed, held, turns, i);
    var told := IngestOf(id, was, turn);
    assert told == Ingest(id, told.changed, told.deleted) && turn.deleted <= told.deleted;
  }

  /** What a path took with it, with nothing new beside it, is held for the next flush: a directory's every file. */
  lemma TakenIsHeld(
      followed: seq<Followed>, changes: set<Path>, rescanning: bool, held: set<Held>, disks: nat -> Disk,
      turns: seq<Turn>,
      i: nat, lost: Path)
    requires TurnsTaken(followed, changes, rescanning, held, disks, turns)
    requires i < |followed| && turns[i].Sorted? && turns[i].changed == {} && !followed[i].file
    requires lost in changes && followed[i].Covers(lost)
    ensures Takes(disks(i), followed[i].dirs, lost) <= HeldFor(AllHeldBack(followed, turns), followed[i].id)
  {
    var id := followed[i].id;
    assert TurnTaken(followed[i], changes, rescanning, HeldFor(held, id), disks(i), turns[i]);
    SortedHasAll(followed[i], changes, rescanning, HeldFor(held, id), disks(i), turns[i], lost);
    forall p | p in Takes(disks(i), followed[i].dirs, lost) ensures p in HeldFor(AllHeldBack(followed, turns), id) {
      GoneIsIngestedOrHeld(followed, held, turns, i, p);
      assert Held(id, p).file == p;
    }
  }

  /** A path that is neither changed nor had anything held is left alone, unless events were lost. */
  lemma OnlyTheTouched(
      followed: seq<Followed>, changes: set<Path>, held: set<Held>, disks: nat -> Disk, turns: seq<Turn>, i: nat)
    requires TurnsTaken(followed, changes, false, held, disks, turns) && i < |followed|
    requires !SomeCovered(followed[i], changes) && HeldFor(held, followed[i].id) == {}
    ensures EffectsOf(followed[i].id, HeldFor(held, followed[i].id), turns[i]) == []
  {
    assert TurnTaken(followed[i], changes, false, HeldFor(held, followed[i].id), disks(i), turns[i]);
  }
}
