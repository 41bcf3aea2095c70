/**
 The file watcher's task (`Watcher` in `crates/cli/src/watch.rs`): what it follows, what it counts as
 watched, and what it holds back. Each method is one the task's loop runs to its end, so the methods
 are called one at a time. What the operating system and the file system answer is not determined.
 */
module Watcher {
  import opened Wrappers
  import opened Watches
  import opened Debounce

  const POLL: int := 30000
  const MISSING: int := 60000

  const GITIGNORE: Name := ".gitignore"

  /** A file found gone, held for the other half of a move. */
  datatype Held = Held(id: Id, file: Path)

  /** What one flush came to for one followed path. */
  datatype Turn = Skipped | Rewalked(found: Walked) | Failed | Sorted(changed: set<Path>, deleted: set<Path>)

  /**
   What the watcher did for a followed path: ingested all that a fresh walk listed, walked it to no ingest because
   it was not there or a walk failed, or ingested what changed under it.
   */
  datatype Effect = Walk(id: Id, files: set<Path>) | Look(id: Id) | Ingest(id: Id, changed: set<Path>,
      deleted: set<Path>)

  predicate Ingested(found: Walked) {
    found.Found? && found.files.Some?
  }

  function WalkOf(id: Id, found: Walked): Effect {
    if Ingested(found) then Walk(id, found.files.value) else Look(id)
  }

  /** The directory that `path` is in, if it is in any. */
  function Parents(path: Path): set<Path> {
    if path.Child? then {path.parent} else {}
  }

  /** The directories a walk wants watched: those it went into, or a file's own. */
  function ToWatch(path: Path, found: Walked): set<Path>
    requires found.Found?
  {
    if !found.file then found.dirs else Parents(path)
  }

  /** When a followed path is next to be polled or looked for. */
  function DueAt(f: Followed): Option<int> {
    match f.state
    case Polling => Some(f.looked + POLL)
    case Missing => Some(f.looked + MISSING)
    case _ => None
  }

  predicate HasUncounted(f: Followed, watches: map<Path, nat>) {
    exists dir :: dir in f.dirs && dir !in watches
  }

  function Polled(f: Followed, watches: map<Path, nat>): Followed {
    if f.state.Watching? && HasUncounted(f, watches) then f.(state := Polling) else f
  }

  ghost predicate UniqueIds(followed: seq<Followed>) {
    forall i, j :: 0 <= i < j < |followed| ==> followed[i].id != followed[j].id
  }

  ghost predicate MissingWantsNothing(followed: seq<Followed>) {
    forall i :: 0 <= i < |followed| && followed[i].state.Missing? ==> followed[i].dirs == {}
  }

  ghost predicate Follows(followed: seq<Followed>, id: Id) {
    exists i :: 0 <= i < |followed| && followed[i].id == id
  }

  ghost predicate HeldFollowed(held: set<Held>, followed: seq<Followed>) {
    forall h :: h in held ==> Follows(followed, h.id)
  }

  lemma SameIdsKeep(held: set<Held>, followed: seq<Followed>, at: nat, f: Followed)
    requires at < |followed| && f.id == followed[at].id
    requires UniqueIds(followed) && HeldFollowed(held, followed)
    ensures UniqueIds(followed[at := f]) && HeldFollowed(held, followed[at := f])
  {
    forall h | h in held ensures Follows(followed[at := f], h.id) {
      var i :| 0 <= i < |followed| && followed[i].id == h.id;
      assert followed[at := f][i].id == h.id;
    }
  }

  /** What is held for any other. */
  function Without(held: set<Held>, id: Id): set<Held> {
    set h | h in held && h.id != id
  }

  lemma RemovedKeeps(held: set<Held>, followed: seq<Followed>, at: nat)
    requires at < |followed| && UniqueIds(followed) && MissingWantsNothing(followed) && HeldFollowed(held, followed)
    ensures var rest := followed[..at] + followed[at + 1..];
            && UniqueIds(rest) && MissingWantsNothing(rest) && !Follows(rest, followed[at].id)
            && HeldFollowed(Without(held, followed[at].id), rest)
  {
    var rest := followed[..at] + followed[at + 1..];
    forall h | h in held && h.id != followed[at].id ensures Follows(rest, h.id) {
      var i :| 0 <= i < |followed| && followed[i].id == h.id;
      assert rest[if i < at then i else i - 1].id == h.id;
    }
  }

  // --- One followed path's part of a flush -----------------------------------------------------

  /** The deletions held for `id` since the last flush. */
  function HeldFor(held: set<Held>, id: Id): set<Path> {
    set h | h in held && h.id == id :: h.file
  }

  /** Whether what was sorted may be half a move: files gone and none new beside them. */
  predicate HalfMove(turn: Turn) {
    turn.Sorted? && turn.changed == {} && turn.deleted != {}
  }

  /** What is held back after `turn`. */
  ghost function HeldBack(id: Id, turn: Turn): set<Held> {
    if HalfMove(turn) then set file | file in turn.deleted :: Held(id, file) else {}
  }

  /** What `turn` did, `was` being the deletions held since the flush before. */
  ghost function EffectsOf(id: Id, was: set<Path>, turn: Turn): seq<Effect> {
    match turn
    case Skipped => []
    case Failed => []
    case Rewalked(found) => [WalkOf(id, found)]
    case Sorted(changed, deleted) =>
      if !HalfMove(turn) then [Ingest(id, changed, was + deleted)]
      else if was == {} then [] else [Ingest(id, {}, was)]
  }

  /** The changes in `changes` that `f` follows. */
  function CoveredBy(f: Followed, changes: set<Path>): set<Path> {
    set p | p in changes && f.Covers(p)
  }

  /** Every new directory among `paths` can be walked, and the files of every vanished one are known. */
  ghost predicate Sortable(f: Followed, paths: set<Path>, disk: Disk) {
    f.file || forall d :: d in paths ==>
      && (KindOf(disk, f.dirs, d).NewDir? ==> FilesIn(disk, d).Some?)
      && (KindOf(disk, f.dirs, d).Vanished? ==> RecordedUnder(disk, d).Some?)
  }

  /** What a changed path brings: itself, or the files of a directory that lists now. */
  function Brings(disk: Disk, dirs: set<Path>, path: Path): set<Path> {
    match KindOf(disk, dirs, path)
    case Changed => {path}
    case NewDir => if FilesIn(disk, path).Some? then FilesIn(disk, path).value else {}
    case _ => {}
  }

  /** What a changed path takes with it: itself, or the files there were under a directory that is gone. */
  function Takes(disk: Disk, dirs: set<Path>, path: Path): set<Path> {
    match KindOf(disk, dirs, path)
    case Deleted => {path}
    case Vanished => if RecordedUnder(disk, path).Some? then RecordedUnder(disk, path).value else {}
    case _ => {}
  }

  /**
   What the changed `paths` under `f` came to. A followed file is changed when it is still there and deleted otherwise;
   under a directory, changed is exactly what the paths bring and deleted exactly what they take with them.
   */
  ghost predicate SortedBy(f: Followed, paths: set<Path>, disk: Disk, changed: set<Path>, deleted: set<Path>) {
    if f.file then
      if !disk.named(f.id.path) then changed == {} == deleted
      else if disk.stillThere(f.id.path) then changed == {f.id.path} && deleted == {}
      else changed == {} && deleted == {f.id.path}
    else
      && (forall p :: p in changed <==> exists d :: d in paths && p in Brings(disk, f.dirs, d))
      && (forall p :: p in deleted <==> exists d :: d in paths && p in Takes(disk, f.dirs, d))
  }

  /**
   What a sort comes to, by what the file system answers: of each file, whether it is among the changed, or the
   deleted.
   */
  lemma SortedInFull(f: Followed, paths: set<Path>, disk: Disk, changed: set<Path>, deleted: set<Path>, p: Path)
    requires !f.file && Sortable(f, paths, disk) && SortedBy(f, paths, disk, changed, deleted)
    ensures p in changed <==>
            || (p in paths && IsListed(disk, f.dirs, p) && !disk.isDir(p) && disk.named(p))
            || (exists d :: d in paths && IsListed(disk, f.dirs, d) && disk.isDir(d) && ListsIn(disk, d, p))
    ensures p in deleted <==>
            || (p in paths && IsAbsent(disk, f.dirs, p) && p !in f.dirs && disk.named(p) && disk.walkedKind(p))
            || (exists d :: d in paths && IsAbsent(disk, f.dirs, d) && d in f.dirs && RecordsIn(disk, d, p))
  {
    hide IsListed, IsAbsent, KindOf;
    forall d ensures p in Brings(disk, f.dirs, d) ==> d in paths ==>
                       || (p == d && IsListed(disk, f.dirs, p) && !disk.isDir(p) && disk.named(p))
                       || (IsListed(disk, f.dirs, d) && disk.isDir(d) && ListsIn(disk, d, p))
    {
      KindExactly(disk, f.dirs, d);
    }
    forall d ensures p in Takes(disk, f.dirs, d) ==> d in paths ==>
                       || (p == d && IsAbsent(disk, f.dirs, p) && p !in f.dirs && disk.named(p) && disk.walkedKind(p))
                       || (IsAbsent(disk, f.dirs, d) && d in f.dirs && RecordsIn(disk, d, p))
    {
      KindExactly(disk, f.dirs, d);
    }
    forall d | d in paths ensures ListsIn(disk, d, p) && IsListed(disk, f.dirs, d) && disk.isDir(d) ==> p in changed {
      KindExactly(disk, f.dirs, d);
    }
    forall d | d in paths ensures RecordsIn(disk, d, p) && IsAbsent(disk, f.dirs, d) && d in f.dirs ==> p in deleted {
      KindExactly(disk, f.dirs, d);
    }
    KindExactly(disk, f.dirs, p);
  }

  /** The walk of `dir` lists `p`, which is under it. */
  predicate ListsIn(disk: Disk, dir: Path, p: Path) {
    disk.files(dir).Some? && p in disk.files(dir).value && StartsWith(p, dir)
  }

  /** What is recorded under `dir` names `p`. */
  predicate RecordsIn(disk: Disk, dir: Path, p: Path) {
    disk.named(dir) && disk.recorded(dir).Some? && p in disk.recorded(dir).value && StartsWith(p, dir)
  }

  lemma ChangedIsBrought(f: Followed, paths: seq<Path>, disk: Disk, files: set<Path>)
    requires forall p :: p in files <==>
               || p in Select(disk, f.dirs, paths, Changed)
               || exists d :: d in Select(disk, f.dirs, paths, NewDir) && p in OrElse(FilesIn(disk, d), {})
    ensures forall p :: p in files <==> exists d :: d in Elements(paths) && p in Brings(disk, f.dirs, d)
  {
    forall p | p in files ensures exists d :: d in Elements(paths) && p in Brings(disk, f.dirs, d) {
      if p in Select(disk, f.dirs, paths, Changed) {
        SelectHas(disk, f.dirs, paths, Changed, p);
        assert p in Elements(paths) && p in Brings(disk, f.dirs, p);
      } else {
        var d :| d in Select(disk, f.dirs, paths, NewDir) && p in OrElse(FilesIn(disk, d), {});
        SelectHas(disk, f.dirs, paths, NewDir, d);
        assert d in Elements(paths) && p in Brings(disk, f.dirs, d);
      }
    }
    forall p, d | d in Elements(paths) && p in Brings(disk, f.dirs, d) ensures p in files {
      SelectHas(disk, f.dirs, paths, Changed, d);
      SelectHas(disk, f.dirs, paths, NewDir, d);
    }
  }

  lemma DeletedIsTaken(f: Followed, paths: seq<Path>, disk: Disk, files: set<Path>)
    requires forall p :: p in files <==>
               || p in Select(disk, f.dirs, paths, Deleted)
               || exists d :: d in Select(disk, f.dirs, paths, Vanished) && p in OrElse(RecordedUnder(disk, d), {})
    ensures forall p :: p in files <==> exists d :: d in Elements(paths) && p in Takes(disk, f.dirs, d)
  {
    forall p | p in files ensures exists d :: d in Elements(paths) && p in Takes(disk, f.dirs, d) {
      if p in Select(disk, f.dirs, paths, Deleted) {
        SelectHas(disk, f.dirs, paths, Deleted, p);
        assert p in Elements(paths) && p in Takes(disk, f.dirs, p);
      } else {
        var d :| d in Select(disk, f.dirs, paths, Vanished) && p in OrElse(RecordedUnder(disk, d), {});
        SelectHas(disk, f.dirs, paths, Vanished, d);
        assert d in Elements(paths) && p in Takes(disk, f.dirs, d);
      }
    }
    forall p, d | d in Elements(paths) && p in Takes(disk, f.dirs, d) ensures p in files {
      SelectHas(disk, f.dirs, paths, Deleted, d);
      SelectHas(disk, f.dirs, paths, Vanished, d);
    }
  }

  lemma SortableByLists(f: Followed, paths: seq<Path>, disk: Disk)
    requires !f.file
    ensures Sortable(f, Elements(paths), disk) <==>
            && (forall d :: d in Select(disk, f.dirs, paths, NewDir) ==> FilesIn(disk, d).Some?)
            && (forall d :: d in Select(disk, f.dirs, paths, Vanished) ==> RecordedUnder(disk, d).Some?)
  {
    forall d ensures d in Select(disk, f.dirs, paths, NewDir)
        <==> d in Elements(paths) && KindOf(disk, f.dirs, d).NewDir? {
      SelectHas(disk, f.dirs, paths, NewDir, d);
    }
    forall d ensures d in Select(disk, f.dirs, paths, Vanished)
        <==> d in Elements(paths) && KindOf(disk, f.dirs, d).Vanished? {
      SelectHas(disk, f.dirs, paths, Vanished, d);
    }
  }

  function Elements(paths: seq<Path>): set<Path> {
    set p | p in paths
  }

  ghost predicate SomeCovered(f: Followed, changes: set<Path>) {
    exists p :: p in changes && f.Covers(p)
  }

  /** A change to what a walk goes into. */
  ghost predicate SomeIgnores(f: Followed, changes: set<Path>) {
    exists p :: p in changes && f.Covers(p) && p.Child? && p.name == GITIGNORE
  }

  /** When a followed path's part of a flush is which of the turns, and what a sorted one sorted. */
  ghost predicate TurnTaken(f: Followed, changes: set<Path>, rescanning: bool, was: set<Path>, disk: Disk, turn: Turn) {
    && (turn.Skipped? <==> f.state.Missing? || (!rescanning && !SomeCovered(f, changes) && was == {}))
    && (turn.Rewalked? <==> !turn.Skipped? && (rescanning || !disk.there(f.id.path) || SomeIgnores(f, changes)))
    && (turn.Rewalked? ==> turn.found == disk.afresh)
    && (turn.Failed? <==> !turn.Skipped? && !turn.Rewalked? && !Sortable(f, CoveredBy(f, changes), disk))
    && (turn.Sorted? ==> SortedBy(f, CoveredBy(f, changes), disk, turn.changed, turn.deleted))
  }

  // --- All of a flush --------------------------------------------------------------------------

  ghost predicate SameIds(before: seq<Followed>, after: seq<Followed>) {
    |before| == |after| && forall i :: 0 <= i < |before| ==> before[i].id == after[i].id
  }

  ghost predicate TurnsTaken(
      followed: seq<Followed>, changes: set<Path>, rescanning: bool, held: set<Held>, disks: nat -> Disk,
          turns: seq<Turn>) {
    && |turns| == |followed|
    && forall i :: 0 <= i < |turns| ==>
         TurnTaken(followed[i], changes, rescanning, HeldFor(held, followed[i].id), disks(i), turns[i])
  }

  ghost function AllHeldBack(followed: seq<Followed>, turns: seq<Turn>): set<Held>
    requires |followed| == |turns|
  {
    if turns == [] then {}
    else
      var n := |turns| - 1;
      AllHeldBack(followed[..n], turns[..n]) + HeldBack(followed[n].id, turns[n])
  }

  ghost function AllEffects(followed: seq<Followed>, held: set<Held>, turns: seq<Turn>): seq<Effect>
    requires |followed| == |turns|
  {
    if turns == [] then []
    else
      var n := |turns| - 1;
      AllEffects(followed[..n], held, turns[..n]) + EffectsOf(followed[n].id, HeldFor(held, followed[n].id), turns[n])
  }

  lemma NoTurns(changes: set<Path>, rescanning: bool, held: set<Held>, disks: nat -> Disk)
    ensures TurnsTaken([], changes, rescanning, held, disks, [])
    ensures AllHeldBack([], []) == {} && AllEffects([], held, []) == []
  {
  }

  /** From `from` on, the followed paths and what is held for them are as a flush began with. */
  ghost predicate Untouched(begun: seq<Followed>, followed: seq<Followed>, from: nat, held: set<Held>,
      rest: set<Held>) {
    && |begun| == |followed|
    && forall j ::
        from <= j < |begun| ==> followed[j] == begun[j] && HeldFor(rest, begun[j].id) == HeldFor(held, begun[j].id)
  }

  lemma AtNext(begun: seq<Followed>, followed: seq<Followed>, at: nat, held: set<Held>, rest: set<Held>)
    requires at < |begun| && Untouched(begun, followed, at, held, rest)
    ensures followed[at] == begun[at] && HeldFor(rest, begun[at].id) == HeldFor(held, begun[at].id)
  {
  }

  lemma UntouchedNext(begun: seq<Followed>, followed: seq<Followed>, at: nat, held: set<Held>, rest: set<Held>,
      f: Followed)
    requires at < |begun| && UniqueIds(begun) && SameIds(begun, followed) && f.id == begun[at].id
    requires Untouched(begun, followed, at, held, rest)
    ensures Untouched(begun, followed[at := f], at + 1, held, rest)
    ensures Untouched(begun, followed[at := f], at + 1, held, Without(rest, f.id))
    ensures SameIds(begun, followed[at := f])
  {
  }

  lemma TurnsGrow(followed: seq<Followed>, f: Followed, changes: set<Path>, rescanning: bool, held: set<Held>,
                  disks: nat -> Disk, turns: seq<Turn>, turn: Turn)
    requires TurnsTaken(followed, changes, rescanning, held, disks, turns)
    requires TurnTaken(f, changes, rescanning, HeldFor(held, f.id), disks(|turns|), turn)
    ensures TurnsTaken(followed + [f], changes, rescanning, held, disks, turns + [turn])
    ensures AllHeldBack(followed + [f], turns + [turn]) == AllHeldBack(followed, turns) + HeldBack(f.id, turn)
    ensures AllEffects(followed + [f], held, turns + [turn])
        == AllEffects(followed, held, turns) + EffectsOf(f.id, HeldFor(held, f.id), turn)
  {
  }

  /** The walks of those of `followed` that are due, each finding what `walks` says of its place. */
  ghost function DueWalks(followed: seq<Followed>, walks: nat -> Walked, now: int): seq<Effect> {
    if followed == [] then []
    else
      var n := |followed| - 1;
      DueWalks(followed[..n], walks, now)
      + if Reached(DueAt(followed[n]), now) then [WalkOf(followed[n].id, walks(n))] else []
  }

  function SoonestOf(followed: seq<Followed>): Option<int> {
    if followed == [] then None else Sooner(DueAt(followed[0]), SoonestOf(followed[1..]))
  }

  lemma {:induction false} SoonestReached(followed: seq<Followed>, now: int)
    ensures Reached(SoonestOf(followed), now) <==> exists i :: 0 <= i < |followed| && Reached(DueAt(followed[i]), now)
  {
    if followed != [] {
      SoonestReached(followed[1..], now);
      if i :| 0 <= i < |followed| && Reached(DueAt(followed[i]), now) {
        assert i > 0 ==> followed[1..][i - 1] == followed[i];
      }
    }
  }

  lemma SameIdsThrough(before: seq<Followed>, between: seq<Followed>, after: seq<Followed>)
    requires SameIds(before, between) && SameIds(between, after)
    ensures SameIds(before, after)
  {
  }

  /** What the operating system tells the watcher. */
  datatype Heard = LimitReached | Trouble | Access | Modified(paths: set<Path>, lost: bool)

  function Outside(paths: set<Path>, workspace: Path): set<Path> {
    set p | p in paths && !StartsWith(p, workspace)
  }

  lemma NoneOutside(workspace: Path)
    ensures Outside({}, workspace) == {}
  {
  }

  class Watcher {
    const os: bool
    const macos: bool
    const workspace: Path
    var followed: seq<Followed>
    var watches: map<Path, nat>
    var streams: set<Path>
    var pending: set<Path>
    var first: Option<int>
    var last: Option<int>
    var held: set<Held>
    var heldUntil: Option<int>
    var rescan: bool
    ghost var log: seq<Effect>

    ghost predicate Valid()
      reads this
    {
      && Tallied(watches, followed) && UniqueIds(followed) && MissingWantsNothing(followed)
      && HeldFollowed(held, followed)
      && (held != {} ==> heldUntil.Some?)
      && (pending != {} || rescan <==> first.Some?)
      && (first.Some? <==> last.Some?) && (first.Some? ==> first.value <= last.value)
    }

    function Deadlines(): Timer
      reads this
    {
      Timer(pending, rescan, first, last, heldUntil)
    }

    constructor (os: bool, macos: bool, workspace: Path)
      ensures Valid() && followed == [] && this.os == os && this.macos == macos && this.workspace == workspace
    {
      this.os, this.macos, this.workspace := os, macos, workspace;
      followed, watches, streams, pending, held := [], map[], {}, {}, {};
      first, last, heldUntil, rescan := None, None, None, false;
      log := [];
    }

    // --- Watching directories ------------------------------------------------------------------

    /**
     Whether `dir` comes to be watched for `synced`, when the operating system takes a watch of what `accepts` says.
     */
    predicate Accepted(dir: Path, synced: Path, accepts: Path -> bool)
      reads this`watches, this`streams
    {
      os && if macos then synced in streams || accepts(synced) else dir in watches || accepts(dir)
    }

    /** `watch`: counts one more followed path wanting `dir`, unless the operating system refuses. */
    method Watch(dir: Path, synced: Path, accepts: Path -> bool) returns (ok: bool)
      modifies this`watches, this`streams
      ensures ok <==> old(Accepted(dir, synced, accepts))
      ensures watches == if ok then Bumped(old(watches), dir) else old(watches)
      ensures streams == if ok && macos then old(streams) + {synced} else old(streams)
      ensures forall d :: Accepted(d, synced, accepts) <==> old(Accepted(d, synced, accepts))
    {
      if !os {
        return false;
      }
      if macos {
        if synced !in streams {
          if !accepts(synced) {
            return false;
          }
          streams := streams + {synced};
        }
        assert streams == old(streams) + {synced};
        watches := watches[dir := Count(watches, dir) + 1];
        return true;
      }
      if dir in watches {
        watches := watches[dir := watches[dir] + 1];
        return true;
      }
      ok := accepts(dir);
      if ok {
        watches := watches[dir := 1];
      }
    }

    method Unwatch(dir: Path)
      modifies this`watches
      ensures watches == Dropped(old(watches), dir)
    {
      if dir !in watches {
        assert watches - {dir} == watches;
        return;
      }
      if watches[dir] > 1 {
        watches := watches[dir := watches[dir] - 1];
      } else {
        watches := watches - {dir};
      }
    }

    /** Stops counting every one of `gone` for the followed path at `at`, which counts `counted`. */
    method UnwatchAll(at: nat, gone: set<Path>, ghost counted: set<Path>)
      requires at < |followed| && gone <= counted && Tallied(watches, As(followed, at, counted))
      modifies this`watches
      ensures Tallied(watches, As(followed, at, counted - gone))
      ensures forall d :: d !in gone ==> (d in watches <==> d in old(watches))
    {
      var rest := gone;
      assert counted - (gone - rest) == counted;
      while rest != {}
        invariant rest <= gone
        invariant Tallied(watches, As(followed, at, counted - (gone - rest)))
        invariant forall d :: d !in gone ==> (d in watches <==> d in old(watches))
      {
        var dir :| dir in rest;
        DroppedTallies(watches, followed, at, counted - (gone - rest), dir);
        assert counted - (gone - (rest - {dir})) == counted - (gone - rest) - {dir};
        rest := rest - {dir};
        Unwatch(dir);
      }
      assert gone - rest == gone;
    }

    /** Whether a fresh watch of an already counted directory took; its count stays either way. */
    method Rewatch(dir: Path) returns (ok: bool) {
      if macos {
        return true;
      }
      if !os {
        return false;
      }
      ok := *;
    }

    method EndStream(path: Path)
      modifies this`streams
    {
      if (forall i :: 0 <= i < |followed| ==> followed[i].id.path != path) {
        streams := streams - {path};
      }
    }

    /** Records whether every directory of a followed path is watched. */
    method Settle(at: nat, refused: bool)
      requires Valid() && at < |followed|
      requires !followed[at].state.Missing? || followed[at].dirs == {}
      modifies this`followed
      ensures Valid()
      ensures followed == old(followed)[at := old(followed)[at].(state := if refused || !os then Polling else Watching)]
    {
      var settled := followed[at].(state := if refused || !os then Polling else Watching);
      SameDirsTally(watches, followed, at, settled);
      SameIdsKeep(held, followed, at, settled);
      followed := followed[at := settled];
    }

    /** What is true of a method that changes one followed path and what is watched for it, and nothing else. */
    twostate predicate OnlyAt(at: nat)
      reads this
    {
      && at < |old(followed)| && |followed| == |old(followed)|
      && followed == old(followed)[at := followed[at]] && followed[at].id == old(followed)[at].id
      && pending == old(pending) && first == old(first) && last == old(last) && rescan == old(rescan)
      && held == old(held) && heldUntil == old(heldUntil)
    }

    /** Watches those of `wanted` not watched `before` for the path at `at`, and says which are watched. */
    method WatchNew(at: nat, before: set<Path>, wanted: set<Path>, accepts: Path -> bool) returns (watched: set<Path>)
      requires at < |followed| && Tallied(watches, As(followed, at, before * wanted))
      modifies this`watches, this`streams
      ensures Tallied(watches, As(followed, at, watched))
      ensures watched == set d | d in wanted && (d in before || old(Accepted(d, followed[at].id.path, accepts)))
    {
      hide Tallied;
      var synced := followed[at].id.path;
      watched := before * wanted;
      var rest := wanted - before;
      while rest != {}
        invariant rest <= wanted && rest !! before
        invariant watched == set d | d in wanted - rest && (d in before || old(Accepted(d, synced, accepts)))
        invariant forall d :: d in rest ==> (Accepted(d, synced, accepts) <==> old(Accepted(d, synced, accepts)))
        invariant Tallied(watches, As(followed, at, watched))
      {
        var dir :| dir in rest;
        rest := rest - {dir};
        BumpedTallies(watches, followed, at, watched, dir);
        var ok := Watch(dir, synced, accepts);
        if ok {
          watched := watched + {dir};
        }
      }
    }

    /** `watch_dirs`: makes `dirs` what is watched for a followed path, as far as it is let. */
    method WatchDirs(at: nat, dirs: set<Path>, accepts: Path -> bool)
      requires Valid() && at < |followed|
      modifies this`followed, this`watches, this`streams
      ensures Valid() && OnlyAt(at)
      ensures AsWanted(at, dirs, accepts)
      ensures followed[at].file == old(followed)[at].file && followed[at].looked == old(followed)[at].looked
      ensures followed[at].vectorIndex == old(followed)[at].vectorIndex
    {
      var wanted := Outside(dirs, workspace);
      var before := followed[at].dirs;
      assert As(followed, at, before) == followed;
      UnwatchAll(at, before - wanted, before);
      assert before - (before - wanted) == before * wanted;
      var watched := WatchNew(at, before, wanted, accepts);
      Adopted(at, watched);
      Settle(at, watched != wanted);
    }

    /** Gives the followed path at `at` the directories counted for it, to be settled. */
    method Adopted(at: nat, watched: set<Path>)
      requires at < |followed| && Tallied(watches, As(followed, at, watched))
      requires UniqueIds(followed) && MissingWantsNothing(followed) && HeldFollowed(held, followed)
      modifies this`followed
      ensures Tallied(watches, followed) && UniqueIds(followed) && MissingWantsNothing(followed)
          && HeldFollowed(held, followed)
      ensures followed == old(followed)[at := old(followed)[at].(dirs := watched, state := Starting)]
    {
      var f := followed[at].(dirs := watched, state := Starting);
      assert As(followed, at, watched)[at := f] == followed[at := f];
      SameDirsTally(watches, As(followed, at, watched), at, f);
      SameIdsKeep(held, followed, at, f);
      followed := followed[at := f];
    }

    // --- Following -----------------------------------------------------------------------------

    /**
     The followed path at `at` has exactly those of `dirs` watched, none of them the workspace's, that it had already or
     that the operating system accepts; and it polls when that is not all.
     */
    twostate predicate AsWanted(at: nat, dirs: set<Path>, accepts: Path -> bool)
      requires at < |old(followed)| && at < |followed|
      reads this
    {
      && followed[at].dirs == (set d | d in dirs && !StartsWith(d, workspace)
                                       && (d in old(followed)[at].dirs
                                           || old(Accepted(d, followed[at].id.path, accepts))))
      && followed[at].state == if os && followed[at].dirs == Outside(dirs, workspace) then Watching else Polling
    }

    /** `catch_up`: walks a followed path afresh and watches what the walk goes into, or finds it missing. */
    method CatchUp(at: nat, now: int, found: Walked)
      requires Valid() && at < |followed|
      modifies this`followed, this`watches, this`streams, this`log
      ensures Valid() && OnlyAt(at)
      ensures log == old(log) + [WalkOf(followed[at].id, found)]
      ensures match found
              case NotThere => followed[at] == old(followed)[at].(state := Missing, looked := now, dirs := {})
              case Unreadable(file) => followed[at] == old(followed)[at].(file := file)
              case Found(file, dirs, accepts, _) =>
                && followed[at].file == file && followed[at].looked == old(followed)[at].looked
                && followed[at].vectorIndex == old(followed)[at].vectorIndex
                && AsWanted(at, if !file then dirs else Parents(followed[at].id.path), accepts)
      ensures found.Found? && found.files.Some? ==> log == old(log) + [Walk(followed[at].id, found.files.value)]
      ensures (found.Found? && found.files.Some?) || log == old(log) + [Look(followed[at].id)]
    {
      log := log + [WalkOf(followed[at].id, found)];
      if found.NotThere? {
        Lose(at, now);
        return;
      }
      var f := followed[at].(file := found.file);
      SameDirsTally(watches, followed, at, f);
      SameIdsKeep(held, followed, at, f);
      followed := followed[at := f];
      if found.Unreadable? {
        return;
      }
      WatchDirs(at, ToWatch(f.id.path, found), found.accepts);
    }

    /** A followed path that is not there: nothing of it is watched until it is. */
    method Lose(at: nat, now: int)
      requires Valid() && at < |followed|
      modifies this`followed, this`watches, this`streams
      ensures Valid() && OnlyAt(at)
      ensures followed[at] == old(followed)[at].(state := Missing, looked := now, dirs := {})
    {
      var dirs := followed[at].dirs;
      assert As(followed, at, dirs) == followed;
      UnwatchAll(at, dirs, dirs);
      assert dirs - dirs == {};
      Adopted(at, {});
      var f := followed[at].(state := Missing, looked := now);
      SameDirsTally(watches, followed, at, f);
      SameIdsKeep(held, followed, at, f);
      followed := followed[at := f];
      EndStream(followed[at].id.path);
    }

    /** Where `id` is followed, if it is. */
    method Find(id: Id) returns (at: Option<nat>)
      ensures at.Some? ==> at.value < |followed| && followed[at.value].id == id
      ensures at.None? ==> !Follows(followed, id)
    {
      for i := 0 to |followed|
        invariant forall j :: 0 <= j < i ==> followed[j].id != id
      {
        if followed[i].id == id {
          return Some(i);
        }
      }
      return None;
    }

    /** `follow`: a path already followed only takes the new settings, a new one is watched and caught up on. */
    method Follow(id: Id, vectorIndex: string, now: int, walked: Walked)
      requires Valid()
      modifies this`followed, this`watches, this`streams, this`log
      ensures Valid()
      ensures Follows(old(followed), id) ==>
                && log == old(log) && watches == old(watches)
                && exists at :: 0 <= at < |old(followed)| && old(followed)[at].id == id
                                && followed == old(followed)[at := old(followed)[at].(vectorIndex := vectorIndex)]
      ensures !Follows(old(followed), id) ==>
                && |followed| == |old(followed)| + 1 && followed[..|old(followed)|] == old(followed)
                && followed[|old(followed)|].id == id && followed[|old(followed)|].vectorIndex == vectorIndex
                && log == old(log) + [WalkOf(id, walked)]
                && match walked
                   case NotThere => followed[|old(followed)|].state.Missing? && followed[|old(followed)|].dirs == {}
                   case Unreadable(_) => followed[|old(followed)|].state.Starting?
                       && followed[|old(followed)|].dirs == {}
                   case Found(file, dirs, accepts, _) =>
                     && followed[|old(followed)|].dirs == (set d | d in (if !file then dirs else Parents(id.path))
                                                                   && !StartsWith(d, workspace)
                                                                   && old(Accepted(d, id.path, accepts)))
                     && (followed[|old(followed)|].state.Watching? <==>
                           os && followed[|old(followed)|].dirs
                                 == Outside(if !file then dirs else Parents(id.path), workspace))
    {
      var found := Find(id);
      if found.Some? {
        var f := followed[found.value].(vectorIndex := vectorIndex);
        SameDirsTally(watches, followed, found.value, f);
        SameIdsKeep(held, followed, found.value, f);
        followed := followed[found.value := f];
        return;
      }
      var isDir: bool := *;
      var f := Followed(id, vectorIndex, !isDir, {}, Starting, now);
      AppendedTallies(watches, followed, f);
      forall h | h in held ensures Follows(followed + [f], h.id) {
        var i :| 0 <= i < |followed| && followed[i].id == h.id;
        assert (followed + [f])[i].id == h.id;
      }
      followed := followed + [f];
      CatchUp(|followed| - 1, now, walked);
    }

    /** `unfollow`: the path's watches and its held deletions go with it. */
    method Unfollow(id: Id)
      requires Valid()
      modifies this`followed, this`watches, this`streams, this`held
      ensures Valid() && !Follows(followed, id)
      ensures !Follows(old(followed), id) ==> followed == old(followed) && held == old(held)
      ensures Follows(old(followed), id) ==>
                && held == Without(old(held), id)
                && exists at :: 0 <= at < |old(followed)| && old(followed)[at].id == id
                                && followed == old(followed)[..at] + old(followed)[at + 1..]
    {
      var found := Find(id);
      if found.None? {
        return;
      }
      var at := found.value;
      var dirs := followed[at].dirs;
      assert As(followed, at, dirs) == followed;
      UnwatchAll(at, dirs, dirs);
      assert dirs - dirs == {};
      var rest := followed[..at] + followed[at + 1..];
      assert As(followed, at, {})[..at] + As(followed, at, {})[at + 1..] == rest;
      RemovedTallies(watches, As(followed, at, {}), at);
      RemovedKeeps(held, followed, at);
      held := Without(held, id);
      followed := rest;
      EndStream(id.path);
    }

    /** `poll_all_unwatched`: polls what is marked as watching with a directory that is not counted. */
    method PollAllUnwatched()
      modifies this`followed
      ensures |followed| == |old(followed)|
      ensures forall i :: 0 <= i < |followed| ==> followed[i] == Polled(old(followed)[i], watches)
    {
      for i := 0 to |followed|
        invariant |followed| == |old(followed)|
        invariant forall j :: 0 <= j < i ==> followed[j] == Polled(old(followed)[j], watches)
        invariant forall j :: i <= j < |followed| ==> followed[j] == old(followed)[j]
      {
        var f := followed[i];
        if f.state.Watching? && HasUncounted(f, watches) {
          followed := followed[i := f.(state := Polling)];
        }
      }
    }

    /** Out of watches, the watcher never finds a followed path to poll: what is wanted is counted. */
    lemma NothingToPoll()
      requires Valid()
      ensures forall i :: 0 <= i < |followed| ==> Polled(followed[i], watches) == followed[i]
    {
      forall i | 0 <= i < |followed| ensures Polled(followed[i], watches) == followed[i] {
        forall dir | dir in followed[i].dirs ensures dir in watches {
          WantedIsWatched(watches, followed, i, dir);
        }
      }
    }

    // --- Sorting what changed ------------------------------------------------------------------

    /** Whether `dir` comes to be counted: it is already, or it comes to be watched. */
    predicate Countable(dir: Path, synced: Path, accepts: Path -> bool)
      reads this`watches, this`streams
    {
      dir in watches || Accepted(dir, synced, accepts)
    }

    /** Counts one more path wanting `dir`, watching it afresh if it is counted already. */
    method CountOne(dir: Path, synced: Path, accepts: Path -> bool) returns (ok: bool)
      modifies this`watches, this`streams
      ensures dir in watches <==> old(Countable(dir, synced, accepts))
      ensures watches == if dir in watches then Bumped(old(watches), dir) else old(watches)
      ensures forall d :: Countable(d, synced, accepts) <==> old(Countable(d, synced, accepts))
      ensures ok ==> dir in watches
    {
      if dir in watches {
        watches := watches[dir := watches[dir] + 1];
        ok := Rewatch(dir);
      } else {
        ok := Watch(dir, synced, accepts);
      }
    }

    /** Gives the followed path at `at` one more directory, which is counted for it. */
    method TakeDir(at: nat, dir: Path)
      requires at < |followed| && !followed[at].state.Missing?
      requires Tallied(watches, As(followed, at, followed[at].dirs + {dir}))
      requires UniqueIds(followed) && MissingWantsNothing(followed) && HeldFollowed(held, followed)
      modifies this`followed
      ensures Tallied(watches, followed) && UniqueIds(followed) && MissingWantsNothing(followed)
          && HeldFollowed(held, followed)
      ensures followed == old(followed)[at := old(followed)[at].(dirs := old(followed)[at].dirs + {dir})]
    {
      var f := followed[at].(dirs := followed[at].dirs + {dir});
      SameIdsKeep(held, followed, at, f);
      followed := followed[at := f];
    }

    /** `watch_one`: watches one more directory of a followed path, afresh if another path counts it. */
    method WatchOne(at: nat, dir: Path, accepts: Path -> bool) returns (ok: bool)
      requires Valid() && at < |followed| && !followed[at].state.Missing? && dir !in followed[at].dirs
      modifies this`followed, this`watches, this`streams
      ensures Valid() && OnlyAt(at)
      ensures followed[at] == old(followed)[at].(dirs := followed[at].dirs)
      ensures followed[at].dirs
           == old(followed)[at].dirs + if old(Countable(dir, followed[at].id.path, accepts)) then {dir} else {}
      ensures forall d ::
                Countable(d, followed[at].id.path, accepts) <==> old(Countable(d, followed[at].id.path, accepts))
      ensures ok ==> dir in followed[at].dirs
    {
      hide Tallied, UniqueIds, MissingWantsNothing, HeldFollowed, Accepted;
      var dirs := followed[at].dirs;
      assert As(followed, at, dirs) == followed;
      BumpedTallies(watches, followed, at, dirs, dir);
      ok := CountOne(dir, followed[at].id.path, accepts);
      if dir in watches {
        TakeDir(at, dir);
      } else {
        assert dirs + {} == dirs;
      }
    }

    /** `forget_dirs_under`: stops watching `dir` and every directory under it for a followed path. */
    method ForgetDirsUnder(at: nat, dir: Path)
      requires Valid() && at < |followed| && !followed[at].state.Missing?
      modifies this`followed, this`watches
      ensures Valid() && OnlyAt(at)
      ensures followed[at] == old(followed)[at].(dirs := set d | d in old(followed)[at].dirs && !StartsWith(d, dir))
    {
      var dirs := followed[at].dirs;
      var under := set d | d in dirs && StartsWith(d, dir);
      assert As(followed, at, dirs) == followed;
      UnwatchAll(at, under, dirs);
      assert dirs - under == set d | d in dirs && !StartsWith(d, dir);
      var f := followed[at].(dirs := dirs - under);
      SameIdsKeep(held, followed, at, f);
      followed := followed[at := f];
    }

    /**
     The followed path at `at` has exactly those of `wanted` that come to be counted, beside the directories it had.
     */
    twostate predicate Added(at: nat, wanted: set<Path>, accepts: Path -> bool)
      requires at < |old(followed)| && at < |followed|
      reads this
    {
      followed[at].dirs
        == old(followed)[at].dirs + set d | d in wanted && old(Countable(d, followed[at].id.path, accepts))
    }

    /**
     Watches `dir` and then each of `more` that is not watched yet for the path at `at`; `refused` when any is not.
     */
    method WatchEach(at: nat, dir: Path, more: set<Path>, accepts: Path -> bool) returns (refused: bool)
      requires Valid() && at < |followed| && !followed[at].state.Missing? && dir !in followed[at].dirs
      modifies this`followed, this`watches, this`streams
      ensures Valid() && OnlyAt(at) && Added(at, {dir} + more, accepts)
      ensures followed[at] == old(followed)[at].(dirs := followed[at].dirs)
      ensures refused || {dir} + more <= followed[at].dirs
    {
      hide Valid, Countable;
      ghost var synced := followed[at].id.path;
      var ok := WatchOne(at, dir, accepts);
      refused := !ok;
      var rest := more;
      while rest != {}
        invariant rest <= more
        invariant Valid() && OnlyAt(at) && !followed[at].state.Missing?
        invariant followed[at] == old(followed)[at].(dirs := followed[at].dirs)
        invariant Added(at, {dir} + (more - rest), accepts)
        invariant forall d :: Countable(d, synced, accepts) <==> old(Countable(d, synced, accepts))
        invariant refused || {dir} + (more - rest) <= followed[at].dirs
        decreases rest
      {
        var sub :| sub in rest;
        rest := rest - {sub};
        if sub !in followed[at].dirs {
          ok := WatchOne(at, sub, accepts);
          refused := refused || !ok;
        }
        assert {dir} + (more - rest) == {dir} + (more - rest - {sub}) + {sub};
      }
      assert more - rest == more;
    }

    /**
     `adopt`: watches a directory that lists now and then what a walk of it goes into, and walks it again for its files;
     none when either walk fails. The path is polled when any of the directories is not watched.
     */
    method Adopt(at: nat, dir: Path, disk: Disk) returns (files: Option<set<Path>>)
      requires Valid() && at < |followed| && !followed[at].state.Missing? && dir !in followed[at].dirs
      modifies this`followed, this`watches, this`streams
      ensures Valid() && OnlyAt(at) && !followed[at].state.Missing?
      ensures followed[at].looked == old(followed)[at].looked && followed[at].file == old(followed)[at].file
      ensures var wanted := {dir} + Outside(OrElse(disk.inside(dir), {}), workspace);
              && Added(at, wanted, disk.accepts)
              && (files.Some? ==> wanted <= followed[at].dirs || followed[at].state.Polling?)
      ensures files == FilesIn(disk, dir)
    {
      hide Valid, Countable, Outside;
      var found := disk.inside(dir);
      NoneOutside(workspace);
      var refused := WatchEach(at, dir, Outside(OrElse(found, {}), workspace), disk.accepts);
      if found.None? {
        return None;
      }
      var listed := disk.files(dir);
      if listed.None? {
        return None;
      }
      if refused {
        Settle(at, true);
      }
      return Some(Under(listed.value, dir));
    }

    /** `files_under`: the files named under a vanished directory; none when the records cannot be read. */
    method FilesUnder(dir: Path, disk: Disk) returns (files: Option<set<Path>>)
      ensures files == RecordedUnder(disk, dir)
    {
      if !disk.named(dir) {
        return Some({});
      }
      var recorded := disk.recorded(dir);
      return if recorded.None? then None else Some(Under(recorded.value, dir));
    }

    /** The files there were under every directory in `vanished`, which are no longer watched for the path at `at`. */
    method ForgetAll(at: nat, vanished: seq<Path>, disk: Disk) returns (files: Option<set<Path>>)
      requires Valid() && at < |followed| && !followed[at].state.Missing?
      modifies this`followed, this`watches
      ensures Valid() && OnlyAt(at) && !followed[at].state.Missing?
      ensures followed[at].looked == old(followed)[at].looked && followed[at].file == old(followed)[at].file
      ensures files.Some? <==> forall d :: d in vanished ==> RecordedUnder(disk, d).Some?
      ensures files.Some? ==>
          forall p :: p in files.value <==> exists d :: d in vanished && p in OrElse(RecordedUnder(disk, d), {})
    {
      hide Valid, RecordedUnder;
      var all: set<Path> := {};
      for i := 0 to |vanished|
        invariant Valid() && OnlyAt(at) && !followed[at].state.Missing?
        invariant followed[at].looked == old(followed)[at].looked && followed[at].file == old(followed)[at].file
        invariant forall d :: d in vanished[..i] ==> RecordedUnder(disk, d).Some?
        invariant forall p :: p in all <==> exists d :: d in vanished[..i] && p in OrElse(RecordedUnder(disk, d), {})
      {
        ForgetDirsUnder(at, vanished[i]);
        var under := FilesUnder(vanished[i], disk);
        assert vanished[i] in vanished;
        if under.None? {
          return None;
        }
        assert vanished[..i + 1] == vanished[..i] + [vanished[i]];
        all := all + under.value;
      }
      assert vanished[..|vanished|] == vanished;
      return Some(all);
    }

    /** The files under every directory in `newDirs`, each watched afresh for the path at `at`. */
    method AdoptAll(at: nat, newDirs: seq<Path>, disk: Disk) returns (files: Option<set<Path>>)
      requires Valid() && at < |followed| && !followed[at].state.Missing?
      modifies this`followed, this`watches, this`streams
      ensures Valid() && OnlyAt(at) && !followed[at].state.Missing?
      ensures followed[at].looked == old(followed)[at].looked && followed[at].file == old(followed)[at].file
      ensures files.Some? <==> forall d :: d in newDirs ==> FilesIn(disk, d).Some?
      ensures files.Some? ==>
          forall p :: p in files.value <==> exists d :: d in newDirs && p in OrElse(FilesIn(disk, d), {})
    {
      hide Valid, FilesIn;
      var all: set<Path> := {};
      for i := 0 to |newDirs|
        invariant Valid() && OnlyAt(at) && !followed[at].state.Missing?
        invariant followed[at].looked == old(followed)[at].looked && followed[at].file == old(followed)[at].file
        invariant forall d :: d in newDirs[..i] ==> FilesIn(disk, d).Some?
        invariant forall p :: p in all <==> exists d :: d in newDirs[..i] && p in OrElse(FilesIn(disk, d), {})
      {
        ForgetDirsUnder(at, newDirs[i]);
        var under := Adopt(at, newDirs[i], disk);
        assert newDirs[i] in newDirs;
        if under.None? {
          return None;
        }
        assert newDirs[..i + 1] == newDirs[..i] + [newDirs[i]];
        all := all + under.value;
      }
      assert newDirs[..|newDirs|] == newDirs;
      return Some(all);
    }

    /**
     `sort`: what the changed `paths` under a followed path came to; none when a directory or the records cannot be
     read.
     */
    method Sort(at: nat, paths: seq<Path>, disk: Disk) returns (sorted: Option<(set<Path>, set<Path>)>)
      requires Valid() && at < |followed| && !followed[at].state.Missing?
      modifies this`followed, this`watches, this`streams
      ensures Valid() && OnlyAt(at) && !followed[at].state.Missing?
      ensures followed[at].looked == old(followed)[at].looked && followed[at].file == old(followed)[at].file
      ensures sorted.Some? <==> Sortable(old(followed)[at], Elements(paths), disk)
      ensures sorted.Some? ==> SortedBy(old(followed)[at], Elements(paths), disk, sorted.value.0, sorted.value.1)
    {
      hide Valid, Select, KindOf, FilesIn, RecordedUnder;
      var f := followed[at];
      if f.file {
        if !disk.named(f.id.path) {
          return Some(({}, {}));
        }
        return Some(if disk.stillThere(f.id.path) then ({f.id.path}, {}) else ({}, {f.id.path}));
      }
      var changed, deleted, newDirs, vanished := SortBy(paths, f.dirs, disk);
      SortableByLists(f, paths, disk);
      var gone := ForgetAll(at, vanished, disk);
      if gone.None? {
        return None;
      }
      var adopted := AdoptAll(at, newDirs, disk);
      if adopted.None? {
        return None;
      }
      var changedSet := Elements(changed) + adopted.value;
      var deletedSet := Elements(deleted) + gone.value;
      ChangedIsBrought(f, paths, disk, changedSet);
      DeletedIsTaken(f, paths, disk, deletedSet);
      return Some((changedSet, deletedSet));
    }

    // --- Flushing ------------------------------------------------------------------------------

    /** The changes in `changes` the followed path at `at` covers. */
    method Covered(at: nat, changes: set<Path>) returns (paths: seq<Path>)
      requires at < |followed|
      ensures forall p :: p in paths <==> p in changes && followed[at].Covers(p)
      ensures paths == [] <==> !SomeCovered(followed[at], changes)
    {
      paths := [];
      var rest := changes;
      while rest != {}
        invariant rest <= changes
        invariant forall p :: p in paths <==> p in changes && p !in rest && followed[at].Covers(p)
      {
        var p :| p in rest;
        rest := rest - {p};
        if followed[at].Covers(p) {
          paths := paths + [p];
        }
      }
      assert paths != [] ==> paths[0] in paths;
    }

    /**
     What was sorted for `id` is ingested with what was held for it -- except that files gone with nothing
     new beside them are held themselves, for one more quiet period.
     */
    method HoldOrIngest(id: Id, was: set<Path>, changed: set<Path>, deleted: set<Path>, now: int)
      modifies this`held, this`heldUntil, this`log
      ensures held == old(held) + HeldBack(id, Sorted(changed, deleted))
      ensures log == old(log) + EffectsOf(id, was, Sorted(changed, deleted))
      ensures heldUntil == if HalfMove(Sorted(changed, deleted)) then Some(now + QUIET) else old(heldUntil)
    {
      if changed == {} && deleted != {} {
        held := held + set file | file in deleted :: Held(id, file);
        heldUntil := Some(now + QUIET);
        if was == {} {
          return;
        }
        log := log + [Ingest(id, {}, was)];
      } else {
        log := log + [Ingest(id, changed, was + deleted)];
      }
    }

    lemma HeldStaysFollowed(at: nat, turn: Turn)
      requires at < |followed| && HeldFollowed(held, followed)
      ensures HeldFollowed(held + HeldBack(followed[at].id, turn), followed)
    {
    }

    /** One followed path's part of a flush of `changes`, `was` being what was held for it since the last. */
    method FlushOne(at: nat, changes: set<Path>, rescanning: bool, was: set<Path>, disk: Disk, now: int)
      returns (ghost turn: Turn)
      requires Valid() && at < |followed|
      modifies this`followed, this`watches, this`streams, this`held, this`heldUntil, this`log
      ensures Valid() && |followed| == |old(followed)| && followed == old(followed)[at := followed[at]]
      ensures followed[at].id == old(followed)[at].id
      ensures pending == old(pending) && first == old(first) && last == old(last) && rescan == old(rescan)
      ensures TurnTaken(old(followed)[at], changes, rescanning, was, disk, turn)
      ensures held == old(held) + HeldBack(old(followed)[at].id, turn)
      ensures log == old(log) + EffectsOf(old(followed)[at].id, was, turn)
      ensures heldUntil == old(heldUntil) || (heldUntil.Some? && heldUntil.value >= now + QUIET)
    {
      hide Tallied, UniqueIds, MissingWantsNothing, HeldFollowed, SortedBy, StartsWith;
      var f := followed[at];
      var id := f.id;
      if f.state.Missing? {
        return Skipped;
      }
      var paths := Covered(at, changes);
      var clock: int :| clock >= now;
      if rescanning {
        CatchUp(at, clock, disk.afresh);
        return Rewalked(disk.afresh);
      }
      if paths == [] && was == {} {
        return Skipped;
      }
      if !disk.there(f.id.path) || exists p :: p in paths && p.Child? && p.name == GITIGNORE {
        CatchUp(at, clock, disk.afresh);
        return Rewalked(disk.afresh);
      }
      assert Elements(paths) == CoveredBy(f, changes);
      var sorted := Sort(at, paths, disk);
      if sorted.None? {
        return Failed;
      }
      var (changed, deleted) := sorted.value;
      turn := Sorted(changed, deleted);
      HeldStaysFollowed(at, turn);
      HoldOrIngest(id, was, changed, deleted, clock);
    }

    /** Takes everything pending and everything held. */
    method TakeAll() returns (changes: set<Path>, rescanning: bool, rest: set<Held>)
      requires Valid()
      modifies this`pending, this`first, this`last, this`rescan, this`held, this`heldUntil
      ensures Valid() && UniqueIds(followed)
      ensures changes == old(pending) && rescanning == old(rescan) && rest == old(held)
      ensures pending == {} && first.None? && last.None? && !rescan && held == {} && heldUntil.None?
    {
      changes, rescanning, rest := pending, rescan, held;
      pending, first, last, rescan, held, heldUntil := {}, None, None, false, {}, None;
    }

    /** A flush of `changes` is under way: the first `|turns|` of the followed paths have taken their turns. */
    ghost predicate Underway(
        begun: seq<Followed>, changes: set<Path>, rescanning: bool, heldThen: set<Held>, logThen: seq<Effect>,
        disks: nat -> Disk,
        turns: seq<Turn>, rest: set<Held>, now: int)
      reads this
    {
      && Valid() && SameIds(begun, followed) && UniqueIds(begun) && |turns| <= |begun|
      && Deadlines() == AfterFlush(heldUntil) && (heldUntil.Some? ==> heldUntil.value >= now + QUIET)
      && Untouched(begun, followed, |turns|, heldThen, rest)
      && TurnsTaken(begun[..|turns|], changes, rescanning, heldThen, disks, turns)
      && held == AllHeldBack(begun[..|turns|], turns)
      && log == logThen + AllEffects(begun[..|turns|], heldThen, turns)
    }

    /** The next followed path takes its turn. */
    method TakeTurn(
        changes: set<Path>, rescanning: bool, before: set<Held>, disks: nat -> Disk, now: int, at: nat,
        ghost begun: seq<Followed>, ghost heldThen: set<Held>, ghost logThen: seq<Effect>, ghost turns: seq<Turn>)
      returns (rest: set<Held>, ghost turn: Turn)
      requires at == |turns| < |followed|
          && Underway(begun, changes, rescanning, heldThen, logThen, disks, turns, before, now)
      modifies this
      ensures |followed| == |old(followed)|
      ensures Underway(begun, changes, rescanning, heldThen, logThen, disks, turns + [turn], rest, now)
    {
      hide TurnTaken, TurnsTaken, AllHeldBack, AllEffects, HeldFor, HeldBack, EffectsOf, Untouched, UniqueIds,
           Tallied, MissingWantsNothing, HeldFollowed;
      var f := followed[at];
      var was := HeldFor(before, f.id);
      AtNext(begun, followed, at, heldThen, before);
      rest := if f.state.Missing? then before else Without(before, f.id);
      ghost var followedThen := followed;
      turn := FlushOne(at, changes, rescanning, was, disks(at), now);
      UntouchedNext(begun, followedThen, at, heldThen, before, followed[at]);
      assert begun[..at + 1] == begun[..at] + [f];
      TurnsGrow(begun[..at], f, changes, rescanning, heldThen, disks, turns, turn);
    }

    /** `flush`: every followed path takes its turn on what is pending, and on what was held for it. */
    method Flush(now: int, disks: nat -> Disk) returns (ghost turns: seq<Turn>)
      requires Valid()
      modifies this
      ensures Valid() && SameIds(old(followed), followed)
      ensures Deadlines() == AfterFlush(heldUntil) && (heldUntil.Some? ==> heldUntil.value >= now + QUIET)
      ensures TurnsTaken(old(followed), old(pending), old(rescan), old(held), disks, turns)
      ensures held == AllHeldBack(old(followed), turns)
      ensures log == old(log) + AllEffects(old(followed), old(held), turns)
    {
      hide Valid, TurnTaken, TurnsTaken, AllHeldBack, AllEffects;
      ghost var begun, heldThen, logThen := followed, held, log;
      var changes, rescanning, rest := TakeAll();
      turns := [];
      NoTurns(changes, rescanning, heldThen, disks);
      var n := |followed|;
      assert begun[..0] == [];
      for at := 0 to n
        invariant |turns| == at && |followed| == |begun| == n
        invariant Underway(begun, changes, rescanning, heldThen, logThen, disks, turns, rest, now)
      {
        ghost var turn;
        rest, turn := TakeTurn(changes, rescanning, rest, disks, now, at, begun, heldThen, logThen, turns);
        turns := turns + [turn];
      }
      assert begun[..n] == begun;
    }

    // --- The loop's steps ----------------------------------------------------------------------

    /** `heard`: what an event names is pending, but for the workspace's own files. */
    method Heard(heard: Heard, now: int)
      requires Valid() && (last.Some? ==> last.value <= now)
      modifies this`followed, this`pending, this`rescan, this`first, this`last
      ensures Valid()
      // even when the limit of watches is reached: there is then nothing left to poll
      ensures followed == old(followed)
      ensures Deadlines() == match heard
                         case Modified(paths, lost) => AfterEvent(old(Deadlines()), Outside(paths, workspace), lost,
                             now)
                         case _ => old(Deadlines())
      ensures heard.Modified? ==>
                && (forall p :: p in pending <==>
                      p in old(pending) || (p in heard.paths && !StartsWith(p, workspace)))
                && (rescan <==> old(rescan) || heard.lost)
    {
      match heard
      case LimitReached =>
        NothingToPoll();
        PollAllUnwatched();
        assert followed == old(followed);
      case Trouble =>
      case Access =>
      case Modified(paths, lost) =>
        if lost {
          rescan := true;
        }
        pending := pending + Outside(paths, workspace);
        if pending != {} || rescan {
          if first.None? {
            first := Some(now);
          }
          last := Some(now);
        }
    }

    /** `next_due`: the soonest of an ingest, of the held deletions, of a poll and of a look for a missing path. */
    function NextDue(): Option<int>
      reads this
    {
      Sooner(Sooner(ChangesDue(Deadlines()), heldUntil), SoonestOf(followed))
    }

    /** Whether anything is due. */
    ghost predicate Overdue(now: int)
      reads this
    {
      || FlushDue(Deadlines(), now)
      || exists i :: 0 <= i < |followed| && Reached(DueAt(followed[i]), now)
    }

    /**
     The loop sleeps exactly until there is something to do: nothing more has changed for a quiet period, or the longest
     wait since the first change is over, or what is held has been for as long as it is to be, or a path is to be polled
     or looked for again.
     */
    lemma WakesExactly(now: int)
      ensures Reached(NextDue(), now) <==> Overdue(now)
      ensures Overdue(now) <==>
              || (first.Some? && last.Some? && (now - last.value >= QUIET || now - first.value >= LONGEST))
              || (heldUntil.Some? && now >= heldUntil.value)
              || exists i :: 0 <= i < |followed|
                             && (|| (followed[i].state.Polling? && now - followed[i].looked >= POLL)
                                 || (followed[i].state.Missing? && now - followed[i].looked >= MISSING))
    {
      SoonestReached(followed, now);
      DueWhen(Deadlines(), now);
    }

    /** A followed path that is due is walked afresh, and is not due again yet. */
    method LookAt(at: nat, now: int, found: Walked)
      requires Valid() && at < |followed|
      modifies this`followed, this`watches, this`streams, this`log
      ensures Valid() && OnlyAt(at)
      ensures log == old(log) + [WalkOf(followed[at].id, found)]
      ensures !Reached(DueAt(followed[at]), now)
    {
      var clock: int :| clock >= now;
      var f := followed[at].(looked := clock);
      SameDirsTally(watches, followed, at, f);
      SameIdsKeep(held, followed, at, f);
      followed := followed[at := f];
      clock :| clock >= now;
      CatchUp(at, clock, found);
    }

    /** Every followed path due to be polled or looked for is walked afresh. */
    method LookAgain(now: int, walks: nat -> Walked)
      requires Valid()
      modifies this`followed, this`watches, this`streams, this`log
      ensures Valid() && SameIds(old(followed), followed)
      ensures log == old(log) + DueWalks(old(followed), walks, now)
      ensures forall i :: 0 <= i < |followed| ==> !Reached(DueAt(followed[i]), now)
    {
      var n := |followed|;
      hide Valid;
      for at := 0 to n
        invariant Valid() && SameIds(old(followed), followed)
        invariant held == old(held) && heldUntil == old(heldUntil)
        invariant forall j :: at <= j < n ==> followed[j] == old(followed)[j]
        invariant forall j :: 0 <= j < at ==> !Reached(DueAt(followed[j]), now)
        invariant log == old(log) + DueWalks(old(followed)[..at], walks, now)
      {
        assert old(followed)[..at + 1] == old(followed)[..at] + [old(followed)[at]];
        if Reached(DueAt(followed[at]), now) {
          LookAt(at, now, walks(at));
        }
      }
      assert old(followed)[..n] == old(followed);
    }

    /**
     `due`: flushes when a flush is due, and then walks afresh what is due to be looked at. Nothing that was
     due is left to do, so the loop always sleeps next.
     */
    method Due(now: int, disks: nat -> Disk, walks: nat -> Walked)
        returns (ghost turns: seq<Turn>, ghost flushed: seq<Followed>)
      requires Valid()
      modifies this
      ensures Valid() && SameIds(old(followed), followed)
      ensures !Overdue(now) && (NextDue().Some? ==> NextDue().value > now)
      ensures forall i :: 0 <= i < |followed| ==>
                && (followed[i].state.Polling? ==> now < followed[i].looked + POLL)
                && (followed[i].state.Missing? ==> now < followed[i].looked + MISSING)
      ensures Deadlines() == if FlushDue(old(Deadlines()), now) then AfterFlush(heldUntil) else old(Deadlines())
      ensures if FlushDue(old(Deadlines()), now) then
                && |turns| == |old(followed)|
                && TurnsTaken(old(followed), old(pending), old(rescan), old(held), disks, turns)
                && held == AllHeldBack(old(followed), turns)
                && log == old(log) + AllEffects(old(followed), old(held), turns) + DueWalks(flushed, walks, now)
              else
                held == old(held) && flushed == old(followed) && log == old(log) + DueWalks(flushed, walks, now)
    {
      turns := [];
      var changed := first.Some? && last.Some? && (now - last.value >= QUIET || now - first.value >= LONGEST);
      var due := heldUntil.Some? && now >= heldUntil.value;
      DueWhen(Deadlines(), now);
      hide Valid, SameIds, TurnsTaken, AllHeldBack, AllEffects, DueWalks, FlushDue, ChangesDue, SoonestOf, DueAt;
      if changed || due {
        turns := Flush(now, disks);
        NotDueAgain(heldUntil, now);
      }
      flushed := followed;
      LookAgain(now, walks);
      NothingOverdue(now);
      WakesExactly(now);
      SameIdsThrough(old(followed), flushed, followed);
    }

    lemma NothingOverdue(now: int)
      requires !FlushDue(Deadlines(), now)
      requires forall i :: 0 <= i < |followed| ==> !Reached(DueAt(followed[i]), now)
      ensures !Overdue(now) && (NextDue().Some? ==> NextDue().value > now)
    {
      WakesExactly(now);
    }
  }
}
