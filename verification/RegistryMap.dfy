/**
 The registry's map half: everything `crates/cli/src/registry.rs` does under the map's lock.

 What the code seen off the reference counts is a parameter (`Counts`), because the counts change
 with the callers and not with the map. The transitions are stated as relations on values
 (`RoomMade`, `SlotTaken`, `IdleClosed`, ...), the class below is proved to make exactly them, and
 the step system in `RegistryProtocol` takes them as its atomic steps.
 */
module RegistryMap {
  import opened Wrappers

  type Key(==, !new)
  type SlotId = nat

  datatype Entry = Entry(slot: SlotId, used: nat, at: int)

  /** What the reference counts of one slot and of the value in it say. */
  datatype Counts = Counts(slot: nat, locked: bool, value: Option<nat>)

  /** Whether dropping an entry would free what it holds. */
  predicate IsUnused(c: Counts) {
    if c.slot != 1 then false
    else if c.locked then false
    else c.value.None? || c.value.value == 1
  }

  /** Where the entries went that are no longer here; `collected` is what `take_evicted` handed out. */
  datatype Tally = Tally(inserted: nat, collected: nat, closed: nat)

  datatype Book = Book(open: map<Key, Entry>, uses: nat, evicted: nat, tally: Tally)

  /** No two entries share a use or a slot, and no use is later than the last one counted. */
  ghost predicate Apart(open: map<Key, Entry>, uses: nat) {
    && (forall k, j {:trigger open[k], open[j]} :: k in open && j in open && k != j ==>
          open[k].used != open[j].used && open[k].slot != open[j].slot)
    && (forall k {:trigger open[k]} :: k in open ==> open[k].used <= uses)
  }

  /** Every entry ever inserted is here, or counted as evicted, or was handed out as such, or was closed idle. */
  ghost predicate Accounted(b: Book) {
    b.tally.inserted == |b.open| + b.evicted + b.tally.collected + b.tally.closed
  }

  ghost predicate Kept(b: Book) {
    Apart(b.open, b.uses) && Accounted(b)
  }

  ghost predicate LeastFirst(open: map<Key, Entry>, unused: set<Key>, gone: set<Key>)
    requires gone <= open.Keys
  {
    forall g, k :: g in gone && k in open && k in unused && k !in gone ==> open[g].used < open[k].used
  }

  /**
   What making room comes to: the entries `gone` are unused, older than every unused entry that
   stays, enough to get below capacity (or all there are), and no more than that takes.
   */
  ghost predicate RoomMade(open: map<Key, Entry>, unused: set<Key>, capacity: nat, gone: set<Key>) {
    && RoomBeingMade(open, unused, capacity, gone)
    && (|open| - |gone| < capacity || (forall k :: k in open && k in unused ==> k in gone))
  }

  ghost predicate RoomBeingMade(open: map<Key, Entry>, unused: set<Key>, capacity: nat, gone: set<Key>) {
    && gone <= open.Keys
    && gone <= unused
    && LeastFirst(open, unused, gone)
    && (gone != {} ==> |open| - |gone| + 1 >= capacity)
  }

  ghost predicate IsLeast(open: map<Key, Entry>, unused: set<Key>, next: Key) {
    && next in open && next in unused
    && forall k :: k in open && k in unused ==> open[next].used <= open[k].used
  }

  /**
   The loop as it runs: each pass reads again which entries are unused, `seen` being what the passes
   found, and closes the least recently used of those.
   */
  ghost predicate ClosedInPasses(open: map<Key, Entry>, seen: seq<set<Key>>, capacity: nat, gone: set<Key>)
    decreases |seen|
  {
    if |open| < capacity then seen == [] && gone == {}
    else
      && seen != []
      && if open.Keys * seen[0] == {} then |seen| == 1 && gone == {}
         else exists next :: next in gone && IsLeast(open, seen[0], next)
                             && ClosedInPasses(open - {next}, seen[1..], capacity, gone - {next})
  }

  /** Whatever the passes read, they close only what is unused in the end, and stop once there is room. */
  ghost predicate MayClose(open: map<Key, Entry>, unused: set<Key>, capacity: nat, gone: set<Key>) {
    && gone <= open.Keys
    && gone <= unused
    && (gone != {} ==> |open| - |gone| + 1 >= capacity)
  }

  ghost predicate AllWithin(seen: seq<set<Key>>, unused: set<Key>) {
    forall i :: 0 <= i < |seen| ==> seen[i] <= unused
  }

  /** `slot`: one use of `key`, giving it the slot `spare` when it has none. */
  ghost predicate SlotTaken(b: Book, seen: seq<set<Key>>, capacity: nat, key: Key, spare: SlotId, at: int,
      gone: set<Key>,
                            b': Book, slot: SlotId)
  {
    if key in b.open then
      && gone == {}
      && slot == b.open[key].slot
      && b' == b.(uses := b.uses + 1, open := b.open[key := Entry(slot, b.uses + 1, at)])
    else
      && ClosedInPasses(b.open, seen, capacity, gone)
      && slot == spare
      && b' == Book((b.open - gone)[key := Entry(spare, b.uses + 1, at)], b.uses + 1, b.evicted + |gone|,
                    b.tally.(inserted := b.tally.inserted + 1))
  }

  /** What `close_idle` closes: exactly the unused entries nothing has wanted for `idle`. */
  ghost function IdleKeys(open: map<Key, Entry>, unused: set<Key>, now: int, idle: nat): set<Key> {
    set k | k in open && k in unused && Since(now, open[k].at) >= idle
  }

  /** A saturating duration: never negative. */
  function Since(now: int, at: int): nat {
    if now < at then 0 else now - at
  }

  ghost function IdleClosed(b: Book, gone: set<Key>): Book
    requires gone <= b.open.Keys
  {
    b.(open := b.open - gone, tally := b.tally.(closed := b.tally.closed + |gone|))
  }

  ghost function Peeked(b: Book, key: Key, counts: bool, at: int): Book
    requires key in b.open
  {
    if counts then b.(uses := b.uses + 1, open := b.open[key := Entry(b.open[key].slot, b.uses + 1, at)]) else b
  }

  ghost function EvictedTaken(b: Book): Book {
    b.(evicted := 0, tally := b.tally.(collected := b.tally.collected + b.evicted))
  }

  lemma RemovedSize(open: map<Key, Entry>, gone: set<Key>)
    requires gone <= open.Keys
    ensures |open - gone| == |open| - |gone|
    ensures (open - gone).Keys == open.Keys - gone
  {
  }

  lemma AddedSize(open: map<Key, Entry>, key: Key, entry: Entry)
    ensures |open[key := entry]| == |open| + if key in open then 0 else 1
  {
  }

  // --- The transitions keep the book -----------------------------------------------------------

  lemma RemovedApart(open: map<Key, Entry>, uses: nat, gone: set<Key>)
    requires Apart(open, uses)
    ensures Apart(open - gone, uses)
  {
  }

  lemma UsedApart(open: map<Key, Entry>, uses: nat, key: Key, slot: SlotId, at: int)
    requires Apart(open, uses)
    requires forall k {:trigger open[k]} :: k in open && k != key ==> open[k].slot != slot
    ensures Apart(open[key := Entry(slot, uses + 1, at)], uses + 1)
  {
  }

  /**
   A use keeps the stamps pairwise distinct and bounded, the slots distinct, and the account of
   every entry ever inserted.
   */
  lemma SlotTakenKeeps(b: Book, seen: seq<set<Key>>, capacity: nat, key: Key, spare: SlotId, at: int, gone: set<Key>,
                       b': Book, slot: SlotId)
    requires Kept(b)
    requires SlotTaken(b, seen, capacity, key, spare, at, gone, b', slot)
    requires forall k {:trigger b.open[k]} :: k in b.open ==> b.open[k].slot != spare
    ensures Kept(b')
  {
    hide ClosedInPasses, Kept;
    if key in b.open {
      PeekedKeeps(b, key, true, at);
    } else {
      ClosedAreOpen(b.open, seen, capacity, gone);
      InsertedBook(b, key, spare, at, gone);
    }
  }

  lemma InsertedBook(book: Book, key: Key, spare: SlotId, at: int, gone: set<Key>)
    requires Kept(book) && key !in book.open && gone <= book.open.Keys
    requires forall k {:trigger book.open[k]} :: k in book.open ==> book.open[k].slot != spare
    ensures Kept(Book((book.open - gone)[key := Entry(spare, book.uses + 1, at)], book.uses + 1, book.evicted + |gone|,
                      book.tally.(inserted := book.tally.inserted + 1)))
  {
    InsertedKeeps(book.open, book.uses, key, spare, at, gone);
  }

  lemma InsertedKeeps(open: map<Key, Entry>, uses: nat, key: Key, slot: SlotId, at: int, gone: set<Key>)
    requires Apart(open, uses) && key !in open && gone <= open.Keys
    requires forall k {:trigger open[k]} :: k in open ==> open[k].slot != slot
    ensures var open' := (open - gone)[key := Entry(slot, uses + 1, at)];
            Apart(open', uses + 1) && |open'| == |open| - |gone| + 1
  {
    RemovedSize(open, gone);
    RemovedApart(open, uses, gone);
    var kept := open - gone;
    forall k | k in kept ensures kept[k].slot != slot {
      assert kept[k] == open[k];
    }
    UsedApart(kept, uses, key, slot, at);
    AddedSize(kept, key, Entry(slot, uses + 1, at));
  }

  /** `k` has been wanted later than any other entry, and at `at`. */
  ghost predicate LastWanted(open: map<Key, Entry>, k: Key, at: int) {
    && k in open && open[k].at == at
    && forall j :: j in open && j != k ==> open[j].used < open[k].used
  }

  ghost predicate SameElsewhere(before: map<Key, Entry>, after: map<Key, Entry>, k: Key) {
    forall j :: j in after && j != k ==> j in before && after[j] == before[j]
  }

  /** What a use is for: its entry is the last to be made room of, and no other entry is any the younger. */
  lemma UseIsLastWanted(b: Book, seen: seq<set<Key>>, capacity: nat, key: Key, spare: SlotId, at: int, gone: set<Key>,
                        b': Book, slot: SlotId)
    requires Kept(b) && SlotTaken(b, seen, capacity, key, spare, at, gone, b', slot)
    ensures LastWanted(b'.open, key, at) && SameElsewhere(b.open, b'.open, key)
  {
  }

  /** So is looking at an entry for work; looking that does not count leaves every entry as it was. */
  lemma PeekIsLastWanted(b: Book, key: Key, counts: bool, at: int)
    requires Kept(b) && key in b.open
    ensures var b' := Peeked(b, key, counts, at);
            if counts then LastWanted(b'.open, key, at) && SameElsewhere(b.open, b'.open, key) else b' == b
  {
  }

  /** Nothing wanted within the period is closed for being idle. */
  lemma WantedIsNotIdle(open: map<Key, Entry>, unused: set<Key>, key: Key, at: int, now: int, idle: nat)
    requires LastWanted(open, key, at) && idle > 0 && now - at < idle
    ensures key !in IdleKeys(open, unused, now, idle)
  {
  }

  /** And while any other entry is unused, what was wanted last is not what the bound closes. */
  lemma LastWantedIsLastClosed(open: map<Key, Entry>, unused: set<Key>, capacity: nat, gone: set<Key>, key: Key,
      at: int)
    requires LastWanted(open, key, at) && RoomMade(open, unused, capacity, gone) && key in gone
    ensures forall j :: j in open && j in unused ==> j in gone
  {
  }

  lemma IdleClosedKeeps(b: Book, gone: set<Key>)
    requires Kept(b) && gone <= b.open.Keys
    ensures Kept(IdleClosed(b, gone))
  {
    RemovedSize(b.open, gone);
    RemovedApart(b.open, b.uses, gone);
  }

  lemma PeekedKeeps(b: Book, key: Key, counts: bool, at: int)
    requires Kept(b) && key in b.open
    ensures Kept(Peeked(b, key, counts, at))
  {
    AddedSize(b.open, key, Entry(b.open[key].slot, b.uses + 1, at));
    UsedApart(b.open, b.uses, key, b.open[key].slot, at);
  }

  /**
   `RoomMade` leaves no choice: the stamps being distinct, the entries to close are determined by
   the map, by which are unused, and by the capacity.
   */
  lemma RoomMadeIsUnique(open: map<Key, Entry>, unused: set<Key>, capacity: nat, gone: set<Key>, other: set<Key>)
    requires RoomMade(open, unused, capacity, gone) && RoomMade(open, unused, capacity, other)
    ensures gone == other
  {
    if gone <= other {
      if g :| g in other && g !in gone {
        assert gone <= other - {g};
        SubsetSize(gone, other - {g});
      }
    } else {
      var g :| g in gone && g !in other;
      forall k | k in other ensures k in gone {
        if k !in gone {
          // each would have to have been used before the other
          assert false;
        }
      }
      assert other <= gone - {g};
      SubsetSize(other, gone - {g});
    }
  }

  lemma SubsetSize<T>(small: set<T>, large: set<T>)
    requires small <= large
    ensures |small| <= |large|
  {
    assert large == small + (large - small);
  }

  /** How many making room closes: as many as are over the bound, or as many as are unused. */
  lemma RoomMadeCount(open: map<Key, Entry>, unused: set<Key>, capacity: nat, gone: set<Key>)
    requires RoomMade(open, unused, capacity, gone)
    ensures var over: nat := if |open| < capacity then 0 else |open| - capacity + 1;
            var idle := |open.Keys * unused|;
            |gone| == if over <= idle then over else idle
  {
    SubsetSize(gone, open.Keys * unused);
    if forall k :: k in open && k in unused ==> k in gone {
      assert gone == open.Keys * unused;
    } else {
      SubsetSize(gone, open.Keys);
      if gone == {} {
        var k :| k in open && k in unused && k !in gone;
      }
    }
  }

  lemma RemovedTwice(open: map<Key, Entry>, gone: set<Key>, next: Key)
    ensures open - gone - {next} == open - (gone + {next})
  {
  }

  lemma LeastExists(open: map<Key, Entry>, unused: set<Key>, some: set<Key>) returns (next: Key)
    requires some != {} && some <= open.Keys * unused
    ensures next in some && forall k :: k in some ==> open[next].used <= open[k].used
    decreases |some|
  {
    next :| next in some;
    if some != {next} {
      var least := LeastExists(open, unused, some - {next});
      if open[least].used < open[next].used {
        next := least;
      }
    }
  }

  // --- Passes ----------------------------------------------------------------------------------

  lemma {:induction false} ClosedAreOpen(open: map<Key, Entry>, seen: seq<set<Key>>, capacity: nat, gone: set<Key>)
    requires ClosedInPasses(open, seen, capacity, gone)
    ensures gone <= open.Keys
    ensures gone != {} ==> |open| - |gone| + 1 >= capacity
    decreases |seen|
  {
    if gone != {} {
      var next :| next in gone && IsLeast(open, seen[0], next)
          && ClosedInPasses(open - {next}, seen[1..], capacity, gone - {next});
      RemovedSize(open, {next});
      ClosedAreOpen(open - {next}, seen[1..], capacity, gone - {next});
      forall k | k in gone ensures k in open {
        assert k != next ==> k in gone - {next};
      }
    }
  }

  /** What the passes close they found unused. */
  lemma {:induction false} ClosedWereRead(open: map<Key, Entry>, seen: seq<set<Key>>, capacity: nat, gone: set<Key>,
      unused: set<Key>)
    requires ClosedInPasses(open, seen, capacity, gone) && AllWithin(seen, unused)
    ensures gone <= unused
    decreases |seen|
  {
    if gone != {} {
      var next :| next in gone && IsLeast(open, seen[0], next)
          && ClosedInPasses(open - {next}, seen[1..], capacity, gone - {next});
      assert seen[0] <= unused;
      ClosedWereRead(open - {next}, seen[1..], capacity, gone - {next}, unused);
    }
  }

  /** There is room for one more, or the last of the passes saw nothing unused among what is left. */
  ghost predicate Done(left: map<Key, Entry>, seen: seq<set<Key>>, capacity: nat) {
    |left| < capacity || (seen != [] && left.Keys * seen[|seen| - 1] == {})
  }

  lemma DoneLater(left: map<Key, Entry>, seen: seq<set<Key>>, capacity: nat)
    requires seen != [] && Done(left, seen[1..], capacity)
    ensures Done(left, seen, capacity)
  {
  }

  lemma NoPass(open: map<Key, Entry>, seen: seq<set<Key>>, capacity: nat, gone: set<Key>)
    requires ClosedInPasses(open, seen, capacity, gone) && gone == {}
    ensures Done(open, seen, capacity)
  {
  }

  lemma FirstPass(open: map<Key, Entry>, seen: seq<set<Key>>, capacity: nat, gone: set<Key>) returns (next: Key)
    requires ClosedInPasses(open, seen, capacity, gone) && gone != {}
    ensures next in gone && seen != [] && ClosedInPasses(open - {next}, seen[1..], capacity, gone - {next})
  {
    next :|
      && next in gone && IsLeast(open, seen[0], next)
      && ClosedInPasses(open - {next}, seen[1..], capacity, gone - {next});
  }

  lemma FirstRemoved(open: map<Key, Entry>, gone: set<Key>, next: Key)
    requires next in gone
    ensures open - {next} - (gone - {next}) == open - gone
  {
  }

  lemma {:induction false} PassesEnd(open: map<Key, Entry>, seen: seq<set<Key>>, capacity: nat, gone: set<Key>)
    requires ClosedInPasses(open, seen, capacity, gone)
    ensures Done(open - gone, seen, capacity)
    decreases |seen|
  {
    hide ClosedInPasses, Done;
    if gone == {} {
      NoPass(open, seen, capacity, gone);
      assert open - gone == open;
    } else {
      var next := FirstPass(open, seen, capacity, gone);
      PassesEnd(open - {next}, seen[1..], capacity, gone - {next});
      FirstRemoved(open, gone, next);
      DoneLater(open - gone, seen, capacity);
    }
  }

  /**
   Read while nothing becomes used again, the passes close what `MayClose` lets them; and whatever it lets
   them close, there are seen by which they do.
   */
  lemma PassesMayClose(open: map<Key, Entry>, seen: seq<set<Key>>, capacity: nat, gone: set<Key>, unused: set<Key>)
    requires ClosedInPasses(open, seen, capacity, gone) && AllWithin(seen, unused)
    ensures MayClose(open, unused, capacity, gone)
  {
    ClosedAreOpen(open, seen, capacity, gone);
    ClosedWereRead(open, seen, capacity, gone, unused);
  }

  lemma {:induction false} SomePassesClose(open: map<Key, Entry>, unused: set<Key>, capacity: nat, gone: set<Key>)
    returns (seen: seq<set<Key>>)
    requires MayClose(open, unused, capacity, gone)
    ensures ClosedInPasses(open, seen, capacity, gone) && AllWithin(seen, unused)
    decreases |gone|
  {
    if gone == {} {
      seen := if |open| < capacity then [] else [{}];
    } else {
      var next :| next in gone;
      RemovedSize(open, {next});
      SubsetSize({next}, gone);
      SubsetSize(gone, open.Keys);
      var rest := SomePassesClose(open - {next}, unused, capacity, gone - {next});
      seen := [{next}] + rest;
      assert seen[1..] == rest;
      assert IsLeast(open, seen[0], next);
    }
  }

  /**
   Reading the same each time, as when nothing is let go meanwhile, the passes close exactly the least
   recently used, as many as it takes.
   */
  lemma {:induction false} SameReadsMakeRoom(open: map<Key, Entry>, uses: nat, seen: seq<set<Key>>, capacity: nat,
      gone: set<Key>, unused: set<Key>)
    requires Apart(open, uses) && ClosedInPasses(open, seen, capacity, gone)
    requires forall i :: 0 <= i < |seen| ==> seen[i] == unused
    ensures RoomMade(open, unused, capacity, gone)
    decreases |seen|
  {
    if |open| >= capacity && open.Keys * unused != {} {
      var next :| next in gone && IsLeast(open, seen[0], next)
          && ClosedInPasses(open - {next}, seen[1..], capacity, gone - {next});
      RemovedSize(open, {next});
      RemovedApart(open, uses, {next});
      SameReadsMakeRoom(open - {next}, uses, seen[1..], capacity, gone - {next}, unused);
      RoomWithOneMore(open, uses, unused, capacity, gone, next);
    } else {
      assert forall k :: k in open && k in unused ==> k in open.Keys * unused;
    }
  }

  lemma RoomWithOneMore(open: map<Key, Entry>, uses: nat, unused: set<Key>, capacity: nat, gone: set<Key>, next: Key)
    requires Apart(open, uses) && next in gone && IsLeast(open, unused, next) && |open| >= capacity
    requires RoomMade(open - {next}, unused, capacity, gone - {next}) && |open - {next}| == |open| - 1
    ensures RoomMade(open, unused, capacity, gone)
  {
    var rest := open - {next};
    assert |gone - {next}| == |gone| - 1;
    forall k | k in gone ensures k in open && k in unused {
      assert k != next ==> k in gone - {next};
    }
    forall g, k | g in gone && k in open && k in unused && k !in gone ensures open[g].used < open[k].used {
      assert k in rest;
      if g != next {
        assert rest[g].used < rest[k].used;
      } else {
        assert open[next].used <= open[k].used && open[next].used != open[k].used;
      }
    }
  }

  /** Room can always be made, as far as the entries in use let it. */
  lemma {:induction false} RoomCanBeMade(open: map<Key, Entry>, uses: nat, unused: set<Key>, capacity: nat)
      returns (gone: set<Key>)
    requires Apart(open, uses)
    ensures RoomMade(open, unused, capacity, gone)
    decreases |open|
  {
    if |open| < capacity || open.Keys * unused == {} {
      assert forall k :: k in open && k in unused ==> k in open.Keys * unused;
      return {};
    }
    var next := LeastExists(open, unused, open.Keys * unused);
    RemovedSize(open, {next});
    RemovedApart(open, uses, {next});
    var rest := RoomCanBeMade(open - {next}, uses, unused, capacity);
    gone := rest + {next};
    assert gone - {next} == rest;
    RoomWithOneMore(open, uses, unused, capacity, gone, next);
  }

  /** One pass before the others. */
  lemma PassFirst(open: map<Key, Entry>, unused: set<Key>, more: seq<set<Key>>, capacity: nat, rest: set<Key>,
      next: Key)
    requires |open| >= capacity && IsLeast(open, unused, next) && next !in rest
    requires ClosedInPasses(open - {next}, more, capacity, rest)
    ensures ClosedInPasses(open, [unused] + more, capacity, rest + {next})
  {
    var seen, gone := [unused] + more, rest + {next};
    assert seen[1..] == more && gone - {next} == rest;
    assert next in open.Keys * seen[0];
  }

  /** After passes that read `seen` and closed `gone` the map is `now`, and more passes only add to them. */
  ghost predicate SoFar(open: map<Key, Entry>, seen: seq<set<Key>>, now: map<Key, Entry>, capacity: nat,
      gone: set<Key>) {
    forall more, rest :: ClosedInPasses(now, more, capacity, rest) && rest !! gone ==>
      ClosedInPasses(open, seen + more, capacity, gone + rest)
  }

  lemma SoFarNothing(open: map<Key, Entry>, capacity: nat)
    ensures SoFar(open, [], open, capacity, {})
  {
    forall more, rest | ClosedInPasses(open, more, capacity, rest)
        ensures ClosedInPasses(open, [] + more, capacity, {} + rest) {
      assert [] + more == more && {} + rest == rest;
    }
  }

  lemma SoFarOneMore(open: map<Key, Entry>, seen: seq<set<Key>>, now: map<Key, Entry>, unused: set<Key>, capacity: nat,
      gone: set<Key>,
                     next: Key)
    requires SoFar(open, seen, now, capacity, gone)
    requires |now| >= capacity && IsLeast(now, unused, next) && next !in gone
    ensures SoFar(open, seen + [unused], now - {next}, capacity, gone + {next})
  {
    hide ClosedInPasses;
    forall more, rest | ClosedInPasses(now - {next}, more, capacity, rest) && rest !! gone + {next}
      ensures ClosedInPasses(open, seen + [unused] + more, capacity, gone + {next} + rest)
    {
      PassFirst(now, unused, more, capacity, rest, next);
      assert seen + ([unused] + more) == seen + [unused] + more && gone + (rest + {next}) == gone + {next} + rest;
    }
  }

  lemma LastPass(now: map<Key, Entry>, unused: set<Key>, capacity: nat)
    requires |now| < capacity || forall k :: k in now ==> k !in unused
    ensures ClosedInPasses(now, if |now| < capacity then [] else [unused], capacity, {})
  {
  }

  lemma SoFarAll(open: map<Key, Entry>, seen: seq<set<Key>>, now: map<Key, Entry>, last: seq<set<Key>>, capacity: nat,
      gone: set<Key>)
    requires SoFar(open, seen, now, capacity, gone) && ClosedInPasses(now, last, capacity, {})
    ensures ClosedInPasses(open, seen + last, capacity, gone)
  {
    assert gone + {} == gone && {} !! gone;
  }

  // --- The map as the server holds it ----------------------------------------------------------

  class Registry {
    var slots: map<Key, Entry>
    var uses: nat
    var evicted: nat
    const capacity: nat
    ghost var tally: Tally

    ghost function Value(): Book
      reads this
    {
      Book(slots, uses, evicted, tally)
    }

    ghost predicate Valid()
      reads this
    {
      Kept(Value())
    }

    ghost function Unused(counts: map<Key, Counts>): set<Key> {
      set k | k in counts && IsUnused(counts[k])
    }

    /** The counts tell of every entry, on every pass. */
    ghost predicate CountsAll(counts: nat -> map<Key, Counts>, keys: set<Key>) {
      forall pass :: keys <= counts(pass).Keys
    }

    ghost predicate SeenBy(counts: nat -> map<Key, Counts>, seen: seq<set<Key>>) {
      forall i :: 0 <= i < |seen| ==> seen[i] == Unused(counts(i))
    }

    lemma SeenNone(counts: nat -> map<Key, Counts>)
      ensures SeenBy(counts, [])
    {
    }

    lemma SeenOneMore(counts: nat -> map<Key, Counts>, seen: seq<set<Key>>)
      requires SeenBy(counts, seen)
      ensures SeenBy(counts, seen + [Unused(counts(|seen|))])
    {
    }

    lemma CountsThisPass(counts: nat -> map<Key, Counts>, keys: set<Key>, pass: nat)
      requires CountsAll(counts, keys)
      ensures keys <= counts(pass).Keys
    {
    }

    constructor (capacity: nat)
      ensures Valid() && this.capacity == capacity
      ensures Value() == Book(map[], 0, 0, Tally(0, 0, 0))
    {
      this.capacity := capacity;
      slots, uses, evicted := map[], 0, 0;
      tally := Tally(0, 0, 0);
    }

    /** The unused entry used longest ago, if any is unused. */
    method LeastRecent(counts: map<Key, Counts>) returns (idle: Option<Key>)
      requires slots.Keys <= counts.Keys
      ensures idle.None? <==> forall k :: k in slots ==> k !in Unused(counts)
      ensures idle.Some? ==> IsLeast(slots, Unused(counts), idle.value)
    {
      idle := None;
      var rest := slots.Keys;
      while rest != {}
        invariant rest <= slots.Keys
        invariant idle.None? ==> forall k :: k in slots && k !in rest ==> k !in Unused(counts)
        invariant idle.Some? ==> idle.value !in rest && IsLeast(slots - rest, Unused(counts), idle.value)
        decreases rest
      {
        var k :| k in rest;
        rest := rest - {k};
        if IsUnused(counts[k]) && (idle.None? || slots[k].used < slots[idle.value].used) {
          idle := Some(k);
        }
      }
      assert slots - rest == slots;
    }

    /**
     `make_room`: closes least-recently-used unused entries until there is room for one more. `counts` is
     what the counts say on each pass, which seen them again.
     */
    method MakeRoom(counts: nat -> map<Key, Counts>)
        returns (closed: nat, ghost seen: seq<set<Key>>, ghost gone: set<Key>)
      requires Valid() && CountsAll(counts, slots.Keys)
      modifies this`slots
      ensures SeenBy(counts, seen)
      ensures ClosedInPasses(old(slots), seen, capacity, gone)
      ensures slots == old(slots) - gone && closed == |gone|
    {
      hide SoFar, ClosedInPasses, Kept, CountsAll, SeenBy, Unused;
      closed, seen, gone := 0, [], {};
      SeenNone(counts);
      ghost var open := slots;
      assert slots - gone == slots;
      SoFarNothing(open, capacity);
      while |slots| >= capacity
        invariant slots == open - gone && closed == |gone| == |seen| && gone <= open.Keys
        invariant SeenBy(counts, seen)
        invariant SoFar(open, seen, slots, capacity, gone)
        decreases slots.Keys
      {
        CountsThisPass(counts, open.Keys, closed);
        SeenOneMore(counts, seen);
        var idle := LeastRecent(counts(closed));
        ghost var before, unused := slots, Unused(counts(closed));
        if idle.None? {
          LastPass(slots, unused, capacity);
          SoFarAll(open, seen, slots, [unused], capacity, gone);
          seen := seen + [unused];
          return;
        }
        var next := idle.value;
        SoFarOneMore(open, seen, before, unused, capacity, gone, next);
        RemovedTwice(open, gone, next);
        seen := seen + [unused];
        gone := gone + {next};
        slots := slots - {next};
        closed := closed + 1;
      }
      LastPass(slots, {}, capacity);
      SoFarAll(open, seen, slots, [], capacity, gone);
      assert seen + [] == seen;
    }

    /**
     The rest of `slot` for a key that has none: the entry is made once there is room, with the use counted as
     `now`.
     */
    method Insert(key: Key, spare: SlotId, now: nat, at: int, counts: nat -> map<Key, Counts>)
      returns (ghost seen: seq<set<Key>>, ghost gone: set<Key>)
      requires Valid() && CountsAll(counts, slots.Keys)
      modifies this`slots, this`evicted, this`tally
      ensures SeenBy(counts, seen) && ClosedInPasses(old(slots), seen, capacity, gone)
      ensures slots == (old(slots) - gone)[key := Entry(spare, now, at)] && evicted == old(evicted) + |gone|
      ensures tally == old(tally).(inserted := old(tally).inserted + 1)
    {
      hide ClosedInPasses, Kept, SeenBy, CountsAll;
      var closed;
      closed, seen, gone := MakeRoom(counts);
      evicted := evicted + closed;
      slots := slots[key := Entry(spare, now, at)];
      tally := tally.(inserted := tally.inserted + 1);
    }

    /** `slot`: this key's slot, made if it has none, counted as a use. */
    method Slot(key: Key, spare: SlotId, at: int, counts: nat -> map<Key, Counts>)
      returns (slot: SlotId, ghost seen: seq<set<Key>>, ghost gone: set<Key>)
      requires Valid() && CountsAll(counts, slots.Keys)
      requires forall k :: k in slots ==> slots[k].slot != spare
      modifies this
      ensures Valid()
      ensures SeenBy(counts, seen)
      ensures SlotTaken(old(Value()), seen, capacity, key, spare, at, gone, Value(), slot)
    {
      hide ClosedInPasses, CountsAll;
      uses := uses + 1;
      var now := uses;
      seen, gone := [], {};
      if key in slots {
        var entry := slots[key];
        slots := slots[key := entry.(used := now, at := at)];
        slot := entry.slot;
      } else {
        seen, gone := Insert(key, spare, now, at, counts);
        slot := spare;
      }
      assert SlotTaken(old(Value()), seen, capacity, key, spare, at, gone, Value(), slot);
      hide SlotTaken, Kept;
      SlotTakenKeeps(old(Value()), seen, capacity, key, spare, at, gone, Value(), slot);
    }

    /** `opened_counting`, the half under the map's lock: the slot to try, if the key has one. */
    method OpenedCounting(key: Key, counting: bool, at: int) returns (slot: Option<SlotId>)
      requires Valid()
      modifies this
      ensures Valid()
      ensures slot.Some? <==> key in old(slots)
      ensures slot.Some? ==> slot.value == old(slots)[key].slot && Value() == Peeked(old(Value()), key, counting, at)
      ensures slot.None? ==> Value() == old(Value())
    {
      hide Kept;
      var now := uses + 1;
      if key !in slots {
        return None;
      }
      slot := Some(slots[key].slot);
      PeekedKeeps(Value(), key, counting, at);
      if counting {
        slots := slots[key := slots[key].(used := now, at := at)];
        uses := now;
      }
    }

    /** `close_idle`: closes every unused entry nothing has wanted for `idle`. */
    method CloseIdle(now: int, idle: nat, counts: map<Key, Counts>) returns (closing: set<Key>)
      requires Valid() && slots.Keys <= counts.Keys
      modifies this
      ensures Valid()
      ensures closing == IdleKeys(old(slots), Unused(counts), now, idle)
      ensures forall k :: k in closing <==>
                k in old(slots) && IsUnused(counts[k]) && (idle == 0 || now - old(slots)[k].at >= idle)
      ensures Value() == IdleClosed(old(Value()), closing)
    {
      closing := set k | k in slots && Since(now, slots[k].at) >= idle && IsUnused(counts[k]);
      IdleClosedKeeps(Value(), closing);
      RemoveAll(closing);
      tally := tally.(closed := tally.closed + |closing|);
    }

    method RemoveAll(closing: set<Key>)
      modifies this`slots
      ensures slots == old(slots) - closing
    {
      var rest := closing;
      while rest != {}
        invariant rest <= closing
        invariant slots == old(slots) - (closing - rest)
        decreases rest
      {
        var k :| k in rest;
        rest := rest - {k};
        slots := slots - {k};
      }
      assert closing - rest == closing;
    }

    /** `take_evicted`: how many the bound has closed since the last call. */
    method TakeEvicted() returns (count: nat)
      requires Valid()
      modifies this
      ensures Valid() && count == old(evicted)
      ensures Value() == EvictedTaken(old(Value()))
    {
      count := evicted;
      tally := tally.(collected := tally.collected + evicted);
      evicted := 0;
    }
  }
}
