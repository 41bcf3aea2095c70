/**
 What the file watcher keeps count of (`crates/cli/src/watch.rs`): paths, followed paths, how many
 followed paths want each directory watched, and how changed paths are sorted by listing their
 directories. The file system is a parameter.
 */
module Watches {
  import opened Wrappers

  type Name = string

  /** A path by components, so that one path is under another by whole components. */
  datatype Path = Top | Child(parent: Path, name: Name)

  predicate StartsWith(path: Path, ancestor: Path) {
    path == ancestor || (path.Child? && StartsWith(path.parent, ancestor))
  }

  /** `path` and then `names`, one component under another. */
  function Extended(path: Path, names: seq<Name>): Path {
    if names == [] then path else Child(Extended(path, names[..|names| - 1]), names[|names| - 1])
  }

  lemma {:induction false} ExtendedStarts(ancestor: Path, names: seq<Name>)
    ensures StartsWith(Extended(ancestor, names), ancestor)
  {
    if names != [] {
      ExtendedStarts(ancestor, names[..|names| - 1]);
    }
  }

  lemma {:induction false} StartsExtended(path: Path, ancestor: Path) returns (names: seq<Name>)
    requires StartsWith(path, ancestor)
    ensures path == Extended(ancestor, names)
    decreases path
  {
    if path == ancestor {
      names := [];
    } else {
      var fewer := StartsExtended(path.parent, ancestor);
      names := fewer + [path.name];
      assert names[..|names| - 1] == fewer;
    }
  }

  /** One path is under another when it is that and some more components, or none. */
  lemma StartsWithExactly(path: Path, ancestor: Path)
    ensures StartsWith(path, ancestor) <==> exists names :: path == Extended(ancestor, names)
  {
    if StartsWith(path, ancestor) {
      var names := StartsExtended(path, ancestor);
    }
    if names :| path == Extended(ancestor, names) {
      ExtendedStarts(ancestor, names);
    }
  }

  datatype Status = Starting | Watching | Polling | Missing

  /** The project and the path a synced path is followed under. */
  datatype Id = Id(project: string, path: Path)

  datatype Followed = Followed(id: Id, vectorIndex: string, file: bool, dirs: set<Path>, state: Status, looked: int) {
    /** Whether a change at `path` is one this follows. */
    predicate Covers(path: Path) {
      if file then path == id.path else StartsWith(path, id.path)
    }
  }

  /** A followed file covers itself alone, a directory all that is under it. */
  lemma CoversExactly(f: Followed, path: Path)
    ensures f.Covers(path) <==> if f.file then path == f.id.path else exists names :: path == Extended(f.id.path, names)
  {
    StartsWithExactly(path, f.id.path);
  }

  // --- Counts ----------------------------------------------------------------------------------

  function Count(watches: map<Path, nat>, dir: Path): nat {
    if dir in watches then watches[dir] else 0
  }

  function Bumped(watches: map<Path, nat>, dir: Path): map<Path, nat> {
    watches[dir := Count(watches, dir) + 1]
  }

  function Dropped(watches: map<Path, nat>, dir: Path): map<Path, nat> {
    if Count(watches, dir) > 1 then watches[dir := watches[dir] - 1] else watches - {dir}
  }

  /** How many followed paths want `dir` watched. */
  ghost function Wanting(followed: seq<Followed>, dir: Path): nat {
    if followed == [] then 0 else (if dir in followed[0].dirs then 1 else 0) + Wanting(followed[1..], dir)
  }

  ghost predicate Tallied(watches: map<Path, nat>, followed: seq<Followed>) {
    && (forall d {:trigger Wanting(followed, d)} {:trigger Count(watches, d)} ::
        Count(watches, d) == Wanting(followed, d))
    && (forall d :: d in watches ==> watches[d] > 0)
  }

  /** `followed` as if the one at `at` wanted `dirs`. */
  ghost function As(followed: seq<Followed>, at: nat, dirs: set<Path>): seq<Followed>
    requires at < |followed|
  {
    followed[at := followed[at].(dirs := dirs)]
  }

  lemma {:induction false} WantingUpdate(followed: seq<Followed>, at: nat, f: Followed, dir: Path)
    requires at < |followed|
    ensures Wanting(followed[at := f], dir) + (if dir in followed[at].dirs then 1 else 0)
         == Wanting(followed, dir) + (if dir in f.dirs then 1 else 0)
  {
    if at == 0 {
      assert followed[at := f][1..] == followed[1..];
    } else {
      assert followed[at := f][1..] == followed[1..][at - 1 := f];
      WantingUpdate(followed[1..], at - 1, f, dir);
    }
  }

  lemma {:induction false} WantingRemove(followed: seq<Followed>, at: nat, dir: Path)
    requires at < |followed|
    ensures Wanting(followed, dir) == Wanting(followed[..at] + followed[at + 1..], dir)
        + (if dir in followed[at].dirs then 1 else 0)
  {
    var rest := followed[..at] + followed[at + 1..];
    if at == 0 {
      assert rest == followed[1..];
    } else {
      assert rest[1..] == followed[1..][..at - 1] + followed[1..][at..];
      WantingRemove(followed[1..], at - 1, dir);
    }
  }

  lemma {:induction false} WantingAppend(followed: seq<Followed>, f: Followed, dir: Path)
    ensures Wanting(followed + [f], dir) == Wanting(followed, dir) + (if dir in f.dirs then 1 else 0)
  {
    if followed == [] {
      assert followed + [f] == [f];
    } else {
      assert (followed + [f])[1..] == followed[1..] + [f];
      WantingAppend(followed[1..], f, dir);
    }
  }

  lemma BumpedTallies(watches: map<Path, nat>, followed: seq<Followed>, at: nat, dirs: set<Path>, dir: Path)
    requires at < |followed| && Tallied(watches, As(followed, at, dirs)) && dir !in dirs
    ensures Tallied(Bumped(watches, dir), As(followed, at, dirs + {dir}))
  {
    var watches', was, now := Bumped(watches, dir), As(followed, at, dirs), As(followed, at, dirs + {dir});
    assert now == was[at := now[at]];
    forall d ensures Count(watches', d) == Wanting(now, d) {
      WantingUpdate(was, at, now[at], d);
      assert Count(watches, d) == Wanting(was, d);
    }
  }

  lemma DroppedTallies(watches: map<Path, nat>, followed: seq<Followed>, at: nat, dirs: set<Path>, dir: Path)
    requires at < |followed| && Tallied(watches, As(followed, at, dirs)) && dir in dirs
    ensures dir in watches
    ensures Tallied(Dropped(watches, dir), As(followed, at, dirs - {dir}))
  {
    var watches', was, now := Dropped(watches, dir), As(followed, at, dirs), As(followed, at, dirs - {dir});
    assert now == was[at := now[at]];
    forall d ensures Count(watches', d) == Wanting(now, d) {
      WantingUpdate(was, at, now[at], d);
      assert Count(watches, d) == Wanting(was, d);
    }
    WantingUpdate(was, at, now[at], dir);
  }

  /** A change to a followed path that keeps its directories changes no count. */
  lemma SameDirsTally(watches: map<Path, nat>, followed: seq<Followed>, at: nat, f: Followed)
    requires at < |followed| && Tallied(watches, followed) && f.dirs == followed[at].dirs
    ensures Tallied(watches, followed[at := f])
  {
    forall d ensures Count(watches, d) == Wanting(followed[at := f], d) {
      WantingUpdate(followed, at, f, d);
      assert Count(watches, d) == Wanting(followed, d);
    }
  }

  lemma RemovedTallies(watches: map<Path, nat>, followed: seq<Followed>, at: nat)
    requires at < |followed| && Tallied(watches, followed) && followed[at].dirs == {}
    ensures Tallied(watches, followed[..at] + followed[at + 1..])
  {
    forall d ensures Count(watches, d) == Wanting(followed[..at] + followed[at + 1..], d) {
      WantingRemove(followed, at, d);
      assert Count(watches, d) == Wanting(followed, d);
    }
  }

  lemma AppendedTallies(watches: map<Path, nat>, followed: seq<Followed>, f: Followed)
    requires Tallied(watches, followed) && f.dirs == {}
    ensures Tallied(watches, followed + [f])
  {
    forall d ensures Count(watches, d) == Wanting(followed + [f], d) {
      WantingAppend(followed, f, d);
      assert Count(watches, d) == Wanting(followed, d);
    }
  }

  lemma {:induction false} WantedIsWatched(watches: map<Path, nat>, followed: seq<Followed>, at: nat, dir: Path)
    requires at < |followed| && Tallied(watches, followed) && dir in followed[at].dirs
    ensures dir in watches
  {
    WantingRemove(followed, at, dir);
    assert Count(watches, dir) == Wanting(followed, dir);
  }

  // --- Sorting changed paths -------------------------------------------------------------------

  /** A directory's listing: what a walk would find in it and the names of everything in it. */
  datatype Listing = Listing(listed: set<Path>, names: set<Name>)

  /**
   What walking a followed path afresh finds: nothing there, something that cannot be walked, or its directories, of
   which the operating system accepts some to be watched, and, from a second walk unless that fails, its files.
   */
  datatype Walked =
    | NotThere
    | Unreadable(file: bool)
    | Found(file: bool, dirs: set<Path>, accepts: Path -> bool, files: Option<set<Path>>)

  datatype ListResult = Gone | Refused | There(listing: Listing)

  /** What the file system answers while one batch of changes is sorted. */
  datatype Disk = Disk(
    list: Path -> ListResult,
    isDir: Path -> bool,
    named: Path -> bool,
    walkedKind: Path -> bool,
    // asked before anything is sorted, and again of a followed file as it is
    there: Path -> bool,
    stillThere: Path -> bool,
    // the directories a walk of a directory goes into, and the files a second one lists; none on an error
    inside: Path -> Option<set<Path>>,
    files: Path -> Option<set<Path>>,
    // the files that records and sections name under a directory; none when they cannot be read
    recorded: Path -> Option<set<Path>>,
    // whether the operating system takes a watch of it
    accepts: Path -> bool,
    // what walking the followed path itself finds
    afresh: Walked)

  datatype Kind = Ignored | Changed | Deleted | Vanished | NewDir

  /** A directory that is gone lists as empty; one that cannot be listed says nothing. */
  function Seen(disk: Disk, dir: Path): Option<Listing> {
    match disk.list(dir)
    case Gone => Some(Listing({}, {}))
    case Refused => None
    case There(listing) => Some(listing)
  }

  function KindOf(disk: Disk, dirs: set<Path>, path: Path): Kind {
    if path.Top? || path.parent !in dirs then Ignored
    else
      match Seen(disk, path.parent)
      case None => Ignored
      case Some(listing) =>
        if path in listing.listed then
          if disk.isDir(path) then NewDir else if disk.named(path) then Changed else Ignored
        else if path.name !in listing.names then
          if path in dirs then Vanished else if disk.named(path) && disk.walkedKind(path) then Deleted else Ignored
        else Ignored
  }

  function Under(files: set<Path>, dir: Path): set<Path> {
    set p | p in files && StartsWith(p, dir)
  }

  /** The files of a directory that lists now; none when either walk of it fails. */
  function FilesIn(disk: Disk, dir: Path): Option<set<Path>> {
    if disk.inside(dir).None? || disk.files(dir).None? then None else Some(Under(disk.files(dir).value, dir))
  }

  /** The files there were under a directory that is gone; none when the records cannot be read. */
  function RecordedUnder(disk: Disk, dir: Path): Option<set<Path>> {
    if !disk.named(dir) then Some({})
    else if disk.recorded(dir).None? then None
    else Some(Under(disk.recorded(dir).value, dir))
  }

  ghost function Select(disk: Disk, dirs: set<Path>, paths: seq<Path>, kind: Kind): seq<Path> {
    if paths == [] then []
    else
      var last := paths[|paths| - 1];
      Select(disk, dirs, paths[..|paths| - 1], kind) + if KindOf(disk, dirs, last) == kind then [last] else []
  }

  lemma {:induction false} SelectHas(disk: Disk, dirs: set<Path>, paths: seq<Path>, kind: Kind, path: Path)
    ensures path in Select(disk, dirs, paths, kind) <==> path in paths && KindOf(disk, dirs, path) == kind
  {
    if paths != [] {
      SelectHas(disk, dirs, paths[..|paths| - 1], kind, path);
      assert paths == paths[..|paths| - 1] + [paths[|paths| - 1]];
    }
  }

  /** `path` is in a directory that is watched and, as that can be listed now, is listed there as a walk would. */
  predicate IsListed(disk: Disk, dirs: set<Path>, path: Path) {
    && path.Child? && path.parent in dirs
    && disk.list(path.parent).There? && path in disk.list(path.parent).listing.listed
  }

  /** `path` is in a directory that is watched, and that is gone or lists nothing of that name. */
  predicate IsAbsent(disk: Disk, dirs: set<Path>, path: Path) {
    && path.Child? && path.parent in dirs
    && (disk.list(path.parent).Gone?
        || (disk.list(path.parent).There?
            && path !in disk.list(path.parent).listing.listed
            && path.name !in disk.list(path.parent).listing.names))
  }

  /** The four kinds a sort tells apart, by what the file system answers. */
  lemma KindExactly(disk: Disk, dirs: set<Path>, path: Path)
    ensures KindOf(disk, dirs, path) == Changed <==>
            IsListed(disk, dirs, path) && !disk.isDir(path) && disk.named(path)
    ensures KindOf(disk, dirs, path) == NewDir <==> IsListed(disk, dirs, path) && disk.isDir(path)
    ensures KindOf(disk, dirs, path) == Vanished <==> IsAbsent(disk, dirs, path) && path in dirs
    ensures KindOf(disk, dirs, path) == Deleted <==>
            IsAbsent(disk, dirs, path) && path !in dirs && disk.named(path) && disk.walkedKind(path)
  {
  }

  lemma SortedExactly(disk: Disk, dirs: set<Path>, paths: seq<Path>)
    ensures forall p :: p in Select(disk, dirs, paths, Changed) <==>
              p in paths && IsListed(disk, dirs, p) && !disk.isDir(p) && disk.named(p)
    ensures forall p ::
        p in Select(disk, dirs, paths, NewDir) <==> p in paths && IsListed(disk, dirs, p) && disk.isDir(p)
    ensures forall p :: p in Select(disk, dirs, paths, Vanished) <==> p in paths && IsAbsent(disk, dirs, p) && p in dirs
    ensures forall p :: p in Select(disk, dirs, paths, Deleted) <==>
              p in paths && IsAbsent(disk, dirs, p) && p !in dirs && disk.named(p) && disk.walkedKind(p)
  {
    hide KindOf, IsListed, IsAbsent, Select;
    forall p, kind | kind != Ignored
      ensures p in Select(disk, dirs, paths, kind) <==> p in paths && KindOf(disk, dirs, p) == kind
    {
      SelectHas(disk, dirs, paths, kind, p);
    }
    forall p
      ensures KindOf(disk, dirs, p) == Changed <==> IsListed(disk, dirs, p) && !disk.isDir(p) && disk.named(p)
      ensures KindOf(disk, dirs, p) == NewDir <==> IsListed(disk, dirs, p) && disk.isDir(p)
      ensures KindOf(disk, dirs, p) == Vanished <==> IsAbsent(disk, dirs, p) && p in dirs
      ensures KindOf(disk, dirs, p) == Deleted <==>
              IsAbsent(disk, dirs, p) && p !in dirs && disk.named(p) && disk.walkedKind(p)
    {
      KindExactly(disk, dirs, p);
    }
  }

  /** Sorts changed paths by listing each one's directory once: each path goes where `KindOf` says, in order. */
  method SortBy(paths: seq<Path>, dirs: set<Path>, disk: Disk)
    returns (changed: seq<Path>, deleted: seq<Path>, newDirs: seq<Path>, vanished: seq<Path>)
    ensures changed == Select(disk, dirs, paths, Changed)
    ensures deleted == Select(disk, dirs, paths, Deleted)
    ensures newDirs == Select(disk, dirs, paths, NewDir)
    ensures vanished == Select(disk, dirs, paths, Vanished)
    // a file that lists, a directory that does, a watched directory that is gone, and a file of a kind walked that is
    ensures forall p :: p in changed <==> p in paths && IsListed(disk, dirs, p) && !disk.isDir(p) && disk.named(p)
    ensures forall p :: p in newDirs <==> p in paths && IsListed(disk, dirs, p) && disk.isDir(p)
    ensures forall p :: p in vanished <==> p in paths && IsAbsent(disk, dirs, p) && p in dirs
    ensures forall p :: p in deleted <==>
              p in paths && IsAbsent(disk, dirs, p) && p !in dirs && disk.named(p) && disk.walkedKind(p)
  {
    changed, deleted, newDirs, vanished := [], [], [], [];
    var listings: map<Path, Option<Listing>> := map[];
    for i := 0 to |paths|
      invariant forall d :: d in listings ==> listings[d] == Seen(disk, d)
      invariant changed == Select(disk, dirs, paths[..i], Changed)
      invariant deleted == Select(disk, dirs, paths[..i], Deleted)
      invariant newDirs == Select(disk, dirs, paths[..i], NewDir)
      invariant vanished == Select(disk, dirs, paths[..i], Vanished)
    {
      var path := paths[i];
      assert paths[..i + 1][..i] == paths[..i];
      if path.Top? || path.parent !in dirs {
        continue;
      }
      if path.parent !in listings {
        listings := listings[path.parent := Seen(disk, path.parent)];
      }
      var listing := listings[path.parent];
      if listing.None? {
        continue;
      }
      var present := path.name in listing.value.names;
      if path in listing.value.listed {
        if disk.isDir(path) {
          newDirs := newDirs + [path];
        } else if disk.named(path) {
          changed := changed + [path];
        }
      } else if !present {
        if path in dirs {
          vanished := vanished + [path];
        } else if disk.named(path) && disk.walkedKind(path) {
          deleted := deleted + [path];
        }
      }
    }
    assert paths[..|paths|] == paths;
    SortedExactly(disk, dirs, paths);
  }
}
