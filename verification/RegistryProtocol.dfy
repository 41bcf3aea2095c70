/**
 Every interleaving of the callers of `crates/cli/src/registry.rs`.

 A task runs one registry operation at a time; its phase is where it stands between two awaits or
 two lock operations, and each step below is one critical section of the map's lock, one lock or
 unlock of a slot, or one statement between them. Reference counts are not stored: a slot's count
 is how many map entries and tasks hold it, a value's is how many slots, draining tasks and callers
 hold it, and memory nothing holds is freed (`Referenced`).

 A critical section of the map's lock that reads counts reads them one after another while others let
 go of slots and values. Its step stands where it ends: by then all it read as unused is unused
 (`UnusedStays`), so the step may close any of what is, and need not close all of it.
 */
module RegistryProtocol {
  import opened Wrappers
  import opened RegistryMap

  type TaskId = nat
  type ValueId = nat

  /** `get_or_open`, `reopen`, `take_then`. */
  datatype Op = Get | Reopen | Take

  /** A slot's lock and what is in it; `key` is the key it was made for. */
  datatype Slot = Slot(key: Key, lock: Option<TaskId>, value: Option<ValueId>)

  datatype Phase =
    | Waiting(op: Op, key: Key, slot: SlotId)                // has cloned the slot, waits for its lock
    | Locked(op: Op, key: Key, slot: SlotId)                 // has just locked it
    | Opening(key: Key, slot: SlotId)                        // `open` is running
    | Draining(key: Key, slot: SlotId, taken: ValueId)       // `take_then` waits for `taken` to be alone
    | Returning(key: Key, slot: SlotId, taken: ValueId)      // `take_then` has found its patience over
    | Working(key: Key, slot: SlotId)                        // `then` is running
    | Peeking(key: Key, slot: SlotId)                        // `opened` has cloned the slot, tries its lock
    | Looking(key: Key, slot: SlotId)                        // `opened` has locked it
    | Unlocking(key: Key, slot: SlotId)                      // about to drop the guard
    | Leaving(key: Key, slot: SlotId)                        // about to drop the clone of the slot
  {
    predicate HasLock() {
      Locked? || Opening? || Draining? || Returning? || Working? || Looking? || Unlocking?
    }

    /** Whether the slot is empty for as long as the task stays here. */
    predicate Empties() {
      Opening? || Draining? || Returning? || Working?
    }

    /** Whether the task holds the value it took out of the slot. */
    predicate Takes() {
      Draining? || Returning?
    }
  }

  /**
   `callers` holds one occurrence for each handle outside the registry, `born` the key every value
   was ever born under.
   */
  datatype State = State(capacity: nat, book: Book, slots: map<SlotId, Slot>, tasks: map<TaskId, Phase>,
                         callers: multiset<ValueId>, born: map<ValueId, Key>)

  datatype Step =
    | Begin(task: TaskId, op: Op, key: Key, spare: SlotId, at: int, gone: set<Key>)
    | Acquire(task: TaskId)
    | Enter(task: TaskId)
    | Opened(task: TaskId, value: ValueId)
    | OpenFailed(task: TaskId)
    | Drained(task: TaskId)
    | GiveUp(task: TaskId)
    | PutBack(task: TaskId)
    | ThenDone(task: TaskId)
    | Unlock(task: TaskId)
    | Leave(task: TaskId)
    | Peek(task: TaskId, key: Key, counting: bool, at: int)
    | TryLock(task: TaskId)
    | Look(task: TaskId)
    | CloseIdle(now: int, idle: nat, gone: set<Key>)
    | TakeEvicted
    | Share(value: ValueId)
    | Release(value: ValueId)

  // --- Reference counts ------------------------------------------------------------------------

  ghost function SlotCount(s: State, id: SlotId): nat {
    |set k | k in s.book.open && s.book.open[k].slot == id| + |set t | t in s.tasks && s.tasks[t].slot == id|
  }

  ghost function ValueCount(s: State, v: ValueId): nat {
    s.callers[v] + |set id | id in s.slots && s.slots[id].value == Some(v)|
      + |set t | t in s.tasks && s.tasks[t].Takes() && s.tasks[t].taken == v|
  }

  ghost function CountsOf(s: State, id: SlotId): Counts
    requires id in s.slots
  {
    var slot := s.slots[id];
    Counts(SlotCount(s, id), slot.lock.Some?, if slot.value.None? then None else Some(ValueCount(s, slot.value.value)))
  }

  /** The entries `is_unused` answers yes for. */
  ghost function Unused(s: State): set<Key> {
    set k | k in s.book.open && s.book.open[k].slot in s.slots && IsUnused(CountsOf(s, s.book.open[k].slot))
  }

  ghost function Referenced(open: map<Key, Entry>, tasks: map<TaskId, Phase>): set<SlotId> {
    (set k | k in open :: open[k].slot) + (set t | t in tasks :: tasks[t].slot)
  }

  /** The slots still in memory once the map is `open` and the tasks are `tasks`. */
  ghost function Alive(slots: map<SlotId, Slot>, open: map<Key, Entry>, tasks: map<TaskId, Phase>): map<SlotId, Slot> {
    map id | id in slots && id in Referenced(open, tasks) :: slots[id]
  }

  // --- Steps -----------------------------------------------------------------------------------

  ghost function Init(capacity: nat): State {
    State(capacity, Book(map[], 0, 0, Tally(0, 0, 0)), map[], map[], multiset{}, map[])
  }

  ghost predicate At(s: State, t: TaskId) {
    t in s.tasks && s.tasks[t].slot in s.slots
  }

  ghost predicate CanBegin(s: State, t: TaskId, key: Key, spare: SlotId, gone: set<Key>) {
    && t !in s.tasks
    && if key in s.book.open then gone == {} && s.book.open[key].slot in s.slots
       else spare !in s.slots && MayClose(s.book.open, Unused(s), s.capacity, gone)
  }

  ghost predicate Enabled(s: State, step: Step) {
    match step
    case Begin(t, _, key, spare, _, gone) => CanBegin(s, t, key, spare, gone)
    case Acquire(t) => At(s, t) && s.tasks[t].Waiting? && s.slots[s.tasks[t].slot].lock.None?
    case Enter(t) => At(s, t) && s.tasks[t].Locked?
    case Opened(t, v) => At(s, t) && s.tasks[t].Opening? && v !in s.born
    case OpenFailed(t) => At(s, t) && s.tasks[t].Opening?
    case Drained(t) => At(s, t) && s.tasks[t].Draining? && ValueCount(s, s.tasks[t].taken) == 1
    case GiveUp(t) => At(s, t) && s.tasks[t].Draining? && ValueCount(s, s.tasks[t].taken) > 1
    case PutBack(t) => At(s, t) && s.tasks[t].Returning?
    case ThenDone(t) => At(s, t) && s.tasks[t].Working?
    case Unlock(t) => At(s, t) && s.tasks[t].Unlocking?
    case Leave(t) => At(s, t) && s.tasks[t].Leaving?
    case Peek(t, key, _, _) => t !in s.tasks && key in s.book.open && s.book.open[key].slot in s.slots
    case TryLock(t) => At(s, t) && s.tasks[t].Peeking?
    case Look(t) => At(s, t) && s.tasks[t].Looking?
    case CloseIdle(now, idle, gone) => gone <= IdleKeys(s.book.open, Unused(s), now, idle)
    case TakeEvicted => true
    case Share(v) => v in s.callers
    case Release(v) => v in s.callers
  }

  /** `s` once task `t`, inside its slot, has gone to `phase` leaving `value` there. */
  ghost function Moved(s: State, t: TaskId, phase: Phase, lock: Option<TaskId>, value: Option<ValueId>): State
    requires At(s, t)
  {
    var id := s.tasks[t].slot;
    s.(tasks := s.tasks[t := phase], slots := s.slots[id := Slot(s.slots[id].key, lock, value)])
  }

  ghost function Apply(s: State, step: Step): State
    requires Enabled(s, step)
  {
    match step
    case Begin(t, op, key, spare, at, gone) => Begun(s, t, op, key, spare, at, gone)
    case Acquire(t) =>
      var p := s.tasks[t];
      Moved(s, t, Locked(p.op, p.key, p.slot), Some(t), s.slots[p.slot].value)
    case Enter(t) => Entered(s, t)
    case Opened(t, v) =>
      var p := s.tasks[t];
      Moved(s, t, Unlocking(p.key, p.slot), Some(t), Some(v))
        .(callers := s.callers + multiset{v}, born := s.born[v := p.key])
    case OpenFailed(t) =>
      var p := s.tasks[t];
      Moved(s, t, Unlocking(p.key, p.slot), Some(t), s.slots[p.slot].value)
    case Drained(t) =>
      var p := s.tasks[t];
      Moved(s, t, Working(p.key, p.slot), Some(t), None)
    case GiveUp(t) =>
      var p := s.tasks[t];
      Moved(s, t, Returning(p.key, p.slot, p.taken), Some(t), None)
    case PutBack(t) =>
      var p := s.tasks[t];
      Moved(s, t, Unlocking(p.key, p.slot), Some(t), Some(p.taken))
    case ThenDone(t) =>
      var p := s.tasks[t];
      Moved(s, t, Unlocking(p.key, p.slot), Some(t), s.slots[p.slot].value)
    case Unlock(t) =>
      var p := s.tasks[t];
      Moved(s, t, Leaving(p.key, p.slot), None, s.slots[p.slot].value)
    case Leave(t) =>
      var tasks := s.tasks - {t};
      s.(tasks := tasks, slots := Alive(s.slots, s.book.open, tasks))
    case Peek(t, key, counting, at) =>
      s.(book := Peeked(s.book, key, counting, at), tasks := s.tasks[t := Peeking(key, s.book.open[key].slot)])
    case TryLock(t) =>
      var p := s.tasks[t];
      var slot := s.slots[p.slot];
      if slot.lock.Some? then s.(tasks := s.tasks[t := Leaving(p.key, p.slot)])
      else Moved(s, t, Looking(p.key, p.slot), Some(t), slot.value)
    case Look(t) =>
      var p := s.tasks[t];
      var value := s.slots[p.slot].value;
      Moved(s, t, Unlocking(p.key, p.slot), Some(t), value)
        .(callers := s.callers + if value.Some? then multiset{value.value} else multiset{})
    case CloseIdle(_, _, gone) =>
      var book := IdleClosed(s.book, gone);
      s.(book := book, slots := Alive(s.slots, book.open, s.tasks))
    case TakeEvicted => s.(book := EvictedTaken(s.book))
    case Share(v) => s.(callers := s.callers + multiset{v})
    case Release(v) => s.(callers := s.callers - multiset{v})
  }

  /** The map's half of an operation: the book is what `SlotTaken` says, and the task holds the slot. */
  ghost function Begun(s: State, t: TaskId, op: Op, key: Key, spare: SlotId, at: int, gone: set<Key>): State
    requires CanBegin(s, t, key, spare, gone)
  {
    if key in s.book.open then Reused(s, t, op, key, at) else Inserted(s, t, op, key, spare, at, gone)
  }

  ghost function Reused(s: State, t: TaskId, op: Op, key: Key, at: int): State
    requires key in s.book.open
  {
    var entry := Entry(s.book.open[key].slot, s.book.uses + 1, at);
    s.(book := s.book.(uses := s.book.uses + 1, open := s.book.open[key := entry]),
       tasks := s.tasks[t := Waiting(op, key, entry.slot)])
  }

  ghost function Inserted(s: State, t: TaskId, op: Op, key: Key, spare: SlotId, at: int, gone: set<Key>): State {
    var open := (s.book.open - gone)[key := Entry(spare, s.book.uses + 1, at)];
    var tasks := s.tasks[t := Waiting(op, key, spare)];
    s.(book := Book(open, s.book.uses + 1, s.book.evicted + |gone|,
                    s.book.tally.(inserted := s.book.tally.inserted + 1)),
       slots := Alive(s.slots[spare := Slot(key, None, None)], open, tasks),
       tasks := tasks)
  }

  /** What a task does first inside a slot it has locked. */
  ghost function Entered(s: State, t: TaskId): State
    requires Enabled(s, Enter(t))
  {
    var p := s.tasks[t];
    var value := s.slots[p.slot].value;
    match p.op
    case Get =>
      if value.Some? then
        Moved(s, t, Unlocking(p.key, p.slot), Some(t), value).(callers := s.callers + multiset{value.value})
      else
        Moved(s, t, Opening(p.key, p.slot), Some(t), None)
    case Reopen => Moved(s, t, Opening(p.key, p.slot), Some(t), None)
    case Take =>
      if value.Some? then Moved(s, t, Draining(p.key, p.slot, value.value), Some(t), None)
      else Moved(s, t, Working(p.key, p.slot), Some(t), None)
  }

  ghost predicate IsRun(s: State, steps: seq<Step>)
    decreases |steps|
  {
    steps == [] || (Enabled(s, steps[0]) && IsRun(Apply(s, steps[0]), steps[1..]))
  }

  ghost function After(s: State, steps: seq<Step>): State
    requires IsRun(s, steps)
    decreases |steps|
  {
    if steps == [] then s else After(Apply(s, steps[0]), steps[1..])
  }

  // --- The invariant ---------------------------------------------------------------------------

  /** Whoever holds a slot for a key holds the slot the map has at that key, and no slot outlives its entry. */
  ghost predicate SlotsHeld(open: map<Key, Entry>, slots: map<SlotId, Slot>, tasks: map<TaskId, Phase>) {
    && (forall t {:trigger tasks[t]} :: t in tasks ==> tasks[t].key in open && open[tasks[t].key].slot == tasks[t].slot)
    && (forall k {:trigger open[k]} :: k in open ==> open[k].slot in slots && slots[open[k].slot].key == k)
    && (forall id {:trigger slots[id]} :: id in slots ==> slots[id].key in open && open[slots[id].key].slot == id)
  }

  /** A slot is locked exactly when the task named in its lock is inside it. */
  ghost predicate LocksHeld(slots: map<SlotId, Slot>, tasks: map<TaskId, Phase>) {
    && (forall id {:trigger slots[id]} :: id in slots && slots[id].lock.Some? ==>
          Inside(tasks, slots[id].lock.value, id))
    && (forall t {:trigger tasks[t]} :: t in tasks && tasks[t].HasLock() ==>
          tasks[t].slot in slots && slots[tasks[t].slot].lock == Some(t))
  }

  ghost predicate Inside(tasks: map<TaskId, Phase>, t: TaskId, id: SlotId) {
    t in tasks && tasks[t].HasLock() && tasks[t].slot == id
  }

  /** A value is only ever in the slot of the key it was opened under, and opening or working empties that slot. */
  ghost predicate ValuesHeld(slots: map<SlotId, Slot>, tasks: map<TaskId, Phase>, born: map<ValueId, Key>) {
    && (forall id {:trigger slots[id]} ::
        id in slots && slots[id].value.Some? ==> Born(born, slots[id].value.value, slots[id].key))
    && (forall t {:trigger tasks[t]} :: t in tasks && tasks[t].Takes() ==> Born(born, tasks[t].taken, tasks[t].key))
    && (forall t {:trigger tasks[t]} :: t in tasks && tasks[t].Empties() ==>
          tasks[t].slot in slots && slots[tasks[t].slot].value.None?)
  }

  ghost predicate Born(born: map<ValueId, Key>, v: ValueId, key: Key) {
    v in born && born[v] == key
  }

  ghost predicate CallersHeld(callers: multiset<ValueId>, born: map<ValueId, Key>) {
    forall v :: v in callers ==> v in born
  }

  ghost predicate Inv(s: State) {
    && Kept(s.book)
    && SlotsHeld(s.book.open, s.slots, s.tasks)
    && LocksHeld(s.slots, s.tasks)
    && ValuesHeld(s.slots, s.tasks, s.born)
    && CallersHeld(s.callers, s.born)
  }

  // --- What the counts say ---------------------------------------------------------------------

  lemma OneSlotCount(s: State, k: Key)
    requires Inv(s) && k in s.book.open
    ensures var id := s.book.open[k].slot;
            SlotCount(s, id) == 1 <==> forall t :: t in s.tasks ==> s.tasks[t].slot != id
  {
    var id := s.book.open[k].slot;
    var entries := set j | j in s.book.open && s.book.open[j].slot == id;
    assert entries == {k};
    var holders := set t | t in s.tasks && s.tasks[t].slot == id;
    if holders == {} {
      forall t | t in s.tasks ensures s.tasks[t].slot != id {
        assert t !in holders;
      }
    } else {
      var t :| t in holders;
    }
  }

  lemma OneValueCount(s: State, id: SlotId)
    requires Inv(s) && id in s.slots && s.slots[id].value.Some?
    ensures ValueCount(s, s.slots[id].value.value) == s.callers[s.slots[id].value.value] + 1
  {
    var v := s.slots[id].value.value;
    assert (set j | j in s.slots && s.slots[j].value == Some(v)) == {id};
    assert (set t | t in s.tasks && s.tasks[t].Takes() && s.tasks[t].taken == v) == {};
  }

  lemma TakenValueCount(s: State, t: TaskId)
    requires Inv(s) && t in s.tasks && s.tasks[t].Takes()
    ensures ValueCount(s, s.tasks[t].taken) == s.callers[s.tasks[t].taken] + 1
  {
    var v := s.tasks[t].taken;
    assert (set j | j in s.slots && s.slots[j].value == Some(v)) == {};
    assert (set r | r in s.tasks && s.tasks[r].Takes() && s.tasks[r].taken == v) == {t};
  }

  /** `is_unused` says what it is for: nobody is at the slot, and no caller holds what is in it. */
  lemma UnusedExactly(s: State, k: Key)
    requires Inv(s) && k in s.book.open
    ensures var id := s.book.open[k].slot;
            k in Unused(s) <==>
              && (forall t :: t in s.tasks ==> s.tasks[t].slot != id)
              && (s.slots[id].value.Some? ==> s.slots[id].value.value !in s.callers)
  {
    var id := s.book.open[k].slot;
    OneSlotCount(s, k);
    if s.slots[id].value.Some? {
      OneValueCount(s, id);
    }
  }

  /** Read off a locked slot, a count of one never happens: the branch for a busy lock is never taken. */
  lemma BusyBranchUnreachable(s: State, k: Key)
    requires Inv(s) && k in s.book.open
    requires CountsOf(s, s.book.open[k].slot).slot == 1
    ensures !CountsOf(s, s.book.open[k].slot).locked
  {
    OneSlotCount(s, k);
  }

  /** The steps that take the map's lock. */
  predicate TakesMapLock(step: Step) {
    step.Begin? || step.Peek? || step.CloseIdle?
  }

  /**
   What the design rests on: while the map's lock is held, an entry found unused stays unused. Slots and
   values are let go meanwhile, and others worked on, but nobody gets hold of what nobody holds.
   */
  lemma UnusedStays(s: State, step: Step, k: Key)
    requires Inv(s) && Enabled(s, step) && !TakesMapLock(step) && k in Unused(s)
    ensures k in Unused(Apply(s, step)) && Apply(s, step).book.open == s.book.open
  {
    hide Inv, Enabled, Apply, Unused;
    InUnused(s, k);
    UnusedExactly(s, k);
    NobodyComes(s, step, k);
    StepKeeps(s, step);
    UnusedExactly(Apply(s, step), k);
  }

  lemma InUnused(s: State, k: Key)
    requires k in Unused(s)
    ensures k in s.book.open
  {
  }

  /** Nobody is at `k`'s slot, and no caller holds what is in it. */
  ghost predicate Deserted(s: State, k: Key)
    requires k in s.book.open && s.book.open[k].slot in s.slots
  {
    var id := s.book.open[k].slot;
    && (forall t :: t in s.tasks ==> s.tasks[t].slot != id)
    && (s.slots[id].value.Some? ==> s.slots[id].value.value !in s.callers)
  }

  /** Off the map's lock nobody comes to a slot nobody is at, and nobody touches it. */
  lemma NobodyComes(s: State, step: Step, k: Key)
    requires Inv(s) && Enabled(s, step) && !TakesMapLock(step) && k in s.book.open && Deserted(s, k)
    ensures var s' := Apply(s, step);
            && s'.book.open == s.book.open && s.book.open[k].slot in s'.slots && Deserted(s', k)
  {
    var id := s.book.open[k].slot;
    if step.Leave? {
      DepartedSlots(s.book.open, s.slots, s.tasks, step.task);
    } else {
      SlotStaysAway(s, step, id);
      if s.slots[id].value.Some? {
        CallersStayAway(s, step, id);
      }
    }
  }

  lemma DepartedSlots(open: map<Key, Entry>, slots: map<SlotId, Slot>, tasks: map<TaskId, Phase>, t: TaskId)
    requires SlotsHeld(open, slots, tasks) && t in tasks
    ensures Alive(slots, open, tasks - {t}) == slots
  {
  }

  /** A step of a task at another slot. */
  ghost predicate Elsewhere(s: State, s': State, t: TaskId) {
    && t in s.tasks && t in s'.tasks && s'.tasks[t].slot == s.tasks[t].slot
    && s'.tasks == s.tasks[t := s'.tasks[t]]
    && (forall id :: id in s.slots && id != s.tasks[t].slot ==> id in s'.slots && s'.slots[id] == s.slots[id])
    && s'.book == s.book
  }

  lemma HolderStaysThere(s: State, step: Step)
    requires Enabled(s, step)
    requires step.Acquire? || step.Opened? || step.OpenFailed? || step.Drained? || step.GiveUp? || step.PutBack?
    ensures Elsewhere(s, Apply(s, step), step.task)
  {
  }

  lemma OtherStaysThere(s: State, step: Step)
    requires Enabled(s, step)
    requires step.ThenDone? || step.Unlock? || step.Look? || step.TryLock? || step.Enter?
    ensures Elsewhere(s, Apply(s, step), step.task)
  {
  }

  lemma SlotStaysAway(s: State, step: Step, id: SlotId)
    requires Enabled(s, step) && id in s.slots && !TakesMapLock(step) && !step.Leave?
    requires forall t :: t in s.tasks ==> s.tasks[t].slot != id
    ensures var s' := Apply(s, step);
            && (forall t :: t in s'.tasks ==> s'.tasks[t].slot != id)
            && id in s'.slots && s'.slots[id] == s.slots[id]
            && s'.book.open == s.book.open
  {
    hide Enabled, Entered, Moved, Unused, Alive, ValueCount;
    match step
    case TakeEvicted =>
    case Share(_) =>
    case Release(_) =>
    case ThenDone(_) => OtherStaysThere(s, step);
    case Unlock(_) => OtherStaysThere(s, step);
    case Look(_) => OtherStaysThere(s, step);
    case TryLock(_) => OtherStaysThere(s, step);
    case Enter(_) => OtherStaysThere(s, step);
    case _ => HolderStaysThere(s, step);
  }

  lemma CallersStayAway(s: State, step: Step, id: SlotId)
    requires Inv(s) && Enabled(s, step) && id in s.slots && !TakesMapLock(step)
    requires forall t :: t in s.tasks ==> s.tasks[t].slot != id
    requires s.slots[id].value.Some? && s.slots[id].value.value !in s.callers
    ensures s.slots[id].value.value !in Apply(s, step).callers
  {
    var v := s.slots[id].value.value;
    assert Born(s.born, v, s.slots[id].key);
    if step.Enter? || step.Look? {
      OneSlotHas(s, id, s.tasks[step.task].slot, v);
    }
    if v in Apply(s, step).callers {
      OnlyTheseShare(s, step, v);
    }
  }

  /** A caller gets hold of a value by finding it in a slot, by opening it, or from another caller. */
  lemma OnlyTheseShare(s: State, step: Step, v: ValueId)
    requires Enabled(s, step) && v in s.born && v !in s.callers && v in Apply(s, step).callers
    ensures step.Enter? || step.Look?
    ensures s.slots[s.tasks[step.task].slot].value == Some(v)
  {
    hide ValueCount, Unused, Alive;
  }

  lemma OneSlotHas(s: State, id: SlotId, other: SlotId, v: ValueId)
    requires Inv(s) && id in s.slots && other in s.slots && id != other && s.slots[id].value == Some(v)
    ensures s.slots[other].value != Some(v) && v in s.born
  {
    assert Born(s.born, v, s.slots[id].key);
  }

  // --- Every step keeps the invariant ----------------------------------------------------------

  lemma MovedSlots(open: map<Key, Entry>, slots: map<SlotId, Slot>, tasks: map<TaskId, Phase>, t: TaskId, phase: Phase,
      slot: Slot)
    requires SlotsHeld(open, slots, tasks) && t in tasks && tasks[t].slot in slots
    requires phase.key == tasks[t].key && phase.slot == tasks[t].slot && slot.key == slots[phase.slot].key
    ensures SlotsHeld(open, slots[phase.slot := slot], tasks[t := phase])
  {
  }

  lemma MovedLocks(slots: map<SlotId, Slot>, tasks: map<TaskId, Phase>, t: TaskId, phase: Phase, slot: Slot)
    requires LocksHeld(slots, tasks) && t in tasks && tasks[t].slot in slots && phase.slot == tasks[t].slot
    requires tasks[t].HasLock() || slots[phase.slot].lock.None?
    requires slot.lock == if phase.HasLock() then Some(t) else None
    ensures LocksHeld(slots[phase.slot := slot], tasks[t := phase])
  {
  }

  lemma MovedValues(slots: map<SlotId, Slot>, tasks: map<TaskId, Phase>, born: map<ValueId, Key>, t: TaskId,
      phase: Phase, slot: Slot,
                    born': map<ValueId, Key>)
    requires LocksHeld(slots, tasks) && ValuesHeld(slots, tasks, born)
    requires t in tasks && tasks[t].slot in slots && phase.slot == tasks[t].slot && slot.key == slots[phase.slot].key
    requires tasks[t].HasLock() || slots[phase.slot].value == slot.value
    requires forall v :: v in born ==> v in born' && born'[v] == born[v]
    requires slot.value.Some? ==> Born(born', slot.value.value, slot.key)
    requires phase.Takes() ==> Born(born', phase.taken, phase.key)
    requires phase.Empties() ==> slot.value.None?
    ensures ValuesHeld(slots[phase.slot := slot], tasks[t := phase], born')
  {
  }

  /** A task that moves on at its slot, whatever it leaves there and whatever it hands to a caller. */
  lemma MovedKeeps(s: State, t: TaskId, phase: Phase, value: Option<ValueId>, callers: multiset<ValueId>,
      born: map<ValueId, Key>)
    requires Inv(s) && At(s, t) && phase.key == s.tasks[t].key && phase.slot == s.tasks[t].slot
    requires s.tasks[t].HasLock() || (s.slots[phase.slot].lock.None? && s.slots[phase.slot].value == value)
    requires forall v :: v in s.born ==> v in born && born[v] == s.born[v]
    requires value.Some? ==> Born(born, value.value, phase.key)
    requires phase.Takes() ==> Born(born, phase.taken, phase.key)
    requires phase.Empties() ==> value.None?
    requires CallersHeld(callers, born)
    ensures Inv(Moved(s, t, phase, if phase.HasLock() then Some(t) else None, value).(callers := callers, born := born))
  {
    var id := s.tasks[t].slot;
    var slot := Slot(s.slots[id].key, if phase.HasLock() then Some(t) else None, value);
    assert s.slots[id].key == phase.key;
    MovedSlots(s.book.open, s.slots, s.tasks, t, phase, slot);
    MovedLocks(s.slots, s.tasks, t, phase, slot);
    MovedValues(s.slots, s.tasks, s.born, t, phase, slot, born);
  }

  lemma DepartedKeeps(open: map<Key, Entry>, slots: map<SlotId, Slot>, tasks: map<TaskId, Phase>,
      born: map<ValueId, Key>, t: TaskId)
    requires SlotsHeld(open, slots, tasks) && LocksHeld(slots, tasks) && ValuesHeld(slots, tasks, born)
    requires t in tasks && !tasks[t].HasLock()
    ensures SlotsHeld(open, slots, tasks - {t})
    ensures LocksHeld(slots, tasks - {t})
    ensures ValuesHeld(slots, tasks - {t}, born)
    ensures Alive(slots, open, tasks - {t}) == slots
  {
  }

  lemma LeaveKeeps(s: State, t: TaskId)
    requires Inv(s) && Enabled(s, Leave(t))
    ensures Inv(Apply(s, Leave(t)))
  {
    hide SlotsHeld, LocksHeld, ValuesHeld, CallersHeld, Kept, Alive;
    DepartedKeeps(s.book.open, s.slots, s.tasks, s.born, t);
  }

  /** A task that newly holds the slot of an entry, without its lock. */
  lemma ArrivedKeeps(open: map<Key, Entry>, slots: map<SlotId, Slot>, tasks: map<TaskId, Phase>,
      born: map<ValueId, Key>, t: TaskId, phase: Phase)
    requires SlotsHeld(open, slots, tasks) && LocksHeld(slots, tasks) && ValuesHeld(slots, tasks, born)
    requires t !in tasks && !phase.HasLock() && phase.key in open && open[phase.key].slot == phase.slot
    ensures SlotsHeld(open, slots, tasks[t := phase])
    ensures LocksHeld(slots, tasks[t := phase])
    ensures ValuesHeld(slots, tasks[t := phase], born)
  {
  }

  /** A new stamp on an entry changes nobody's slot. */
  lemma StampedSlots(open: map<Key, Entry>, slots: map<SlotId, Slot>, tasks: map<TaskId, Phase>, key: Key, entry: Entry)
    requires SlotsHeld(open, slots, tasks) && key in open && entry.slot == open[key].slot
    ensures SlotsHeld(open[key := entry], slots, tasks)
  {
  }

  lemma PeekKeeps(s: State, t: TaskId, key: Key, counting: bool, at: int)
    requires Inv(s) && Enabled(s, Peek(t, key, counting, at))
    ensures Inv(Apply(s, Peek(t, key, counting, at)))
  {
    var id := s.book.open[key].slot;
    PeekedKeeps(s.book, key, counting, at);
    var book := Peeked(s.book, key, counting, at);
    StampedSlots(s.book.open, s.slots, s.tasks, key, book.open[key]);
    assert s.book.open[key := s.book.open[key]] == s.book.open;
    ArrivedKeeps(book.open, s.slots, s.tasks, s.born, t, Peeking(key, id));
  }

  ghost function Without(slots: map<SlotId, Slot>, gone: set<Key>): map<SlotId, Slot> {
    map id | id in slots && slots[id].key !in gone :: slots[id]
  }

  lemma WithoutKeeps(open: map<Key, Entry>, slots: map<SlotId, Slot>, tasks: map<TaskId, Phase>,
      born: map<ValueId, Key>, gone: set<Key>)
    requires SlotsHeld(open, slots, tasks) && LocksHeld(slots, tasks) && ValuesHeld(slots, tasks, born)
    requires forall t {:trigger tasks[t]} :: t in tasks ==> tasks[t].key !in gone
    ensures SlotsHeld(open - gone, Without(slots, gone), tasks)
    ensures LocksHeld(Without(slots, gone), tasks)
    ensures ValuesHeld(Without(slots, gone), tasks, born)
  {
  }

  /** Closing unused entries frees exactly their slots, and nobody is at one of those. */
  lemma ClosedSlots(s: State, gone: set<Key>)
    requires Inv(s) && gone <= Unused(s)
    ensures Alive(s.slots, s.book.open - gone, s.tasks) == Without(s.slots, gone)
    ensures forall t {:trigger s.tasks[t]} :: t in s.tasks ==> s.tasks[t].key !in gone
  {
    hide Unused, LocksHeld, ValuesHeld, CallersHeld, Kept;
    forall t | t in s.tasks ensures s.tasks[t].key !in gone {
      UnusedExactly(s, s.tasks[t].key);
    }
    forall id | id in s.slots ensures id in Referenced(s.book.open - gone, s.tasks) <==> s.slots[id].key !in gone {
      var k := s.slots[id].key;
      if k !in gone {
        assert k in s.book.open - gone && (s.book.open - gone)[k].slot == id;
      }
    }
  }

  lemma ClosedKeeps(s: State, gone: set<Key>)
    requires Inv(s) && gone <= Unused(s)
    ensures var book := IdleClosed(s.book, gone);
            Inv(s.(book := book, slots := Alive(s.slots, book.open, s.tasks)))
  {
    ClosedSlots(s, gone);
    WithoutKeeps(s.book.open, s.slots, s.tasks, s.born, gone);
    IdleClosedKeeps(s.book, gone);
  }

  lemma InsertedHeld(open: map<Key, Entry>, slots: map<SlotId, Slot>, tasks: map<TaskId, Phase>,
      born: map<ValueId, Key>,
                     entry: Entry, t: TaskId, phase: Phase)
    requires SlotsHeld(open, slots, tasks) && LocksHeld(slots, tasks) && ValuesHeld(slots, tasks, born)
    requires phase.key !in open && phase.slot !in slots && t !in tasks && !phase.HasLock() && entry.slot == phase.slot
    ensures var slots' := slots[phase.slot := Slot(phase.key, None, None)];
            && SlotsHeld(open[phase.key := entry], slots', tasks[t := phase])
            && LocksHeld(slots', tasks[t := phase])
            && ValuesHeld(slots', tasks[t := phase], born)
  {
    var slots' := slots[phase.slot := Slot(phase.key, None, None)];
    assert SlotsHeld(open[phase.key := entry], slots', tasks);
    assert LocksHeld(slots', tasks);
    assert ValuesHeld(slots', tasks, born);
    ArrivedKeeps(open[phase.key := entry], slots', tasks, born, t, phase);
  }

  lemma ReferencedAdd(open: map<Key, Entry>, tasks: map<TaskId, Phase>, key: Key, entry: Entry, t: TaskId, phase: Phase)
    requires key !in open && t !in tasks && phase.slot == entry.slot
    ensures Referenced(open[key := entry], tasks[t := phase]) == Referenced(open, tasks) + {entry.slot}
  {
    var open', tasks' := open[key := entry], tasks[t := phase];
    forall id | id in Referenced(open, tasks) ensures id in Referenced(open', tasks') {
      if k :| k in open && open[k].slot == id {
        assert open'[k].slot == id;
      } else {
        var r :| r in tasks && tasks[r].slot == id;
        assert tasks'[r].slot == id;
      }
    }
    assert open'[key].slot == entry.slot;
  }

  lemma AliveAdd(slots: map<SlotId, Slot>, open: map<Key, Entry>, tasks: map<TaskId, Phase>, key: Key, entry: Entry,
      slot: Slot,
                 t: TaskId, phase: Phase)
    requires key !in open && t !in tasks && phase.slot == entry.slot
    ensures Alive(slots[entry.slot := slot], open[key := entry], tasks[t := phase])
        == Alive(slots, open, tasks)[entry.slot := slot]
  {
    ReferencedAdd(open, tasks, key, entry, t, phase);
  }

  lemma BeginKeeps(s: State, t: TaskId, op: Op, key: Key, spare: SlotId, at: int, gone: set<Key>)
    requires Inv(s) && CanBegin(s, t, key, spare, gone)
    ensures Inv(Begun(s, t, op, key, spare, at, gone))
  {
    if key in s.book.open {
      ReusedKeeps(s, t, op, key, at);
    } else {
      InsertedKeepsAll(s, t, op, key, spare, at, gone);
    }
  }

  lemma ReusedBook(book: Book, key: Key, at: int)
    requires Kept(book) && key in book.open
    ensures Kept(book.(uses := book.uses + 1, open := book.open[key := Entry(book.open[key].slot, book.uses + 1, at)]))
  {
    PeekedKeeps(book, key, true, at);
  }

  lemma ReusedKeeps(s: State, t: TaskId, op: Op, key: Key, at: int)
    requires Inv(s) && t !in s.tasks && key in s.book.open
    ensures Inv(Reused(s, t, op, key, at))
  {
    hide SlotsHeld, LocksHeld, ValuesHeld, CallersHeld, Kept;
    var slot := s.book.open[key].slot;
    var entry := Entry(slot, s.book.uses + 1, at);
    ReusedBook(s.book, key, at);
    StampedSlots(s.book.open, s.slots, s.tasks, key, entry);
    ArrivedKeeps(s.book.open[key := entry], s.slots, s.tasks, s.born, t, Waiting(op, key, slot));
  }

  /** Giving a key its first slot frees the slots of what was closed for it, and no other. */
  lemma InsertedSlots(s: State, t: TaskId, op: Op, key: Key, spare: SlotId, at: int, gone: set<Key>)
    requires Inv(s) && t !in s.tasks && key !in s.book.open && spare !in s.slots && gone <= Unused(s)
    ensures Inserted(s, t, op, key, spare, at, gone).slots == Without(s.slots, gone)[spare := Slot(key, None, None)]
    ensures forall r {:trigger s.tasks[r]} :: r in s.tasks ==> s.tasks[r].key !in gone
  {
    hide SlotsHeld, LocksHeld, ValuesHeld, CallersHeld, Kept, Alive, Without, Unused;
    ClosedSlots(s, gone);
    AliveAdd(s.slots, s.book.open - gone, s.tasks, key, Entry(spare, s.book.uses + 1, at), Slot(key, None, None),
             t, Waiting(op, key, spare));
  }

  lemma SpareIsNew(s: State, spare: SlotId, gone: set<Key>)
    requires Inv(s) && spare !in s.slots
    ensures spare !in Without(s.slots, gone)
    ensures Unused(s) <= s.book.open.Keys
    ensures forall k {:trigger s.book.open[k]} :: k in s.book.open ==> s.book.open[k].slot != spare
  {
  }

  lemma InsertedKeepsAll(s: State, t: TaskId, op: Op, key: Key, spare: SlotId, at: int, gone: set<Key>)
    requires Inv(s) && t !in s.tasks && key !in s.book.open && spare !in s.slots && gone <= Unused(s)
    ensures Inv(Inserted(s, t, op, key, spare, at, gone))
  {
    hide SlotsHeld, LocksHeld, ValuesHeld, CallersHeld, Kept, Alive, Without, Unused;
    SpareIsNew(s, spare, gone);
    var entry := Entry(spare, s.book.uses + 1, at);
    var kept, slots, phase := s.book.open - gone, Without(s.slots, gone), Waiting(op, key, spare);
    InsertedSlots(s, t, op, key, spare, at, gone);
    WithoutKeeps(s.book.open, s.slots, s.tasks, s.born, gone);
    InsertedHeld(kept, slots, s.tasks, s.born, entry, t, phase);
    InsertedBook(s.book, key, spare, at, gone);
    var s' := Inserted(s, t, op, key, spare, at, gone);
    assert s'.book.open == kept[key := entry] && s'.tasks == s.tasks[t := phase];
    assert Kept(s'.book);
    assert Inv(s');
  }

  lemma EnterKeeps(s: State, t: TaskId)
    requires Inv(s) && Enabled(s, Enter(t))
    ensures Inv(Apply(s, Enter(t)))
  {
    var p := s.tasks[t];
    var value := s.slots[p.slot].value;
    if value.Some? {
      assert Born(s.born, value.value, p.key);
    }
    if p.op.Get? && value.Some? {
      MovedKeeps(s, t, Unlocking(p.key, p.slot), value, s.callers + multiset{value.value}, s.born);
    } else if p.op.Take? && value.Some? {
      MovedKeeps(s, t, Draining(p.key, p.slot, value.value), None, s.callers, s.born);
    } else if p.op.Take? {
      MovedKeeps(s, t, Working(p.key, p.slot), None, s.callers, s.born);
    } else {
      MovedKeeps(s, t, Opening(p.key, p.slot), None, s.callers, s.born);
    }
  }

  lemma HolderKeeps(s: State, step: Step)
    requires Inv(s) && Enabled(s, step)
    requires step.Acquire? || step.OpenFailed? || step.ThenDone? || step.Unlock?
    ensures Inv(Apply(s, step))
  {
    var t := step.task;
    var s' := Apply(s, step);
    MovedKeeps(s, t, s'.tasks[t], s'.slots[s.tasks[t].slot].value, s'.callers, s'.born);
  }

  lemma OpenedKeeps(s: State, t: TaskId, v: ValueId)
    requires Inv(s) && Enabled(s, Opened(t, v))
    ensures Inv(Apply(s, Opened(t, v)))
  {
    var p := s.tasks[t];
    MovedKeeps(s, t, Unlocking(p.key, p.slot), Some(v), s.callers + multiset{v}, s.born[v := p.key]);
  }

  lemma LookKeeps(s: State, t: TaskId)
    requires Inv(s) && Enabled(s, Look(t))
    ensures Inv(Apply(s, Look(t)))
  {
    var p := s.tasks[t];
    MovedKeeps(s, t, Unlocking(p.key, p.slot), s.slots[p.slot].value, Apply(s, Look(t)).callers, s.born);
  }

  lemma TakerKeeps(s: State, step: Step)
    requires Inv(s) && Enabled(s, step)
    requires step.Drained? || step.GiveUp? || step.PutBack?
    ensures Inv(Apply(s, step))
  {
    var t := step.task;
    var s' := Apply(s, step);
    MovedKeeps(s, t, s'.tasks[t], s'.slots[s.tasks[t].slot].value, s'.callers, s'.born);
  }

  lemma TryLockKeeps(s: State, t: TaskId)
    requires Inv(s) && Enabled(s, TryLock(t))
    ensures Inv(Apply(s, TryLock(t)))
  {
    var p := s.tasks[t];
    if s.slots[p.slot].lock.None? {
      MovedKeeps(s, t, Looking(p.key, p.slot), s.slots[p.slot].value, s.callers, s.born);
    } else {
      WaitedKeeps(s, t, Leaving(p.key, p.slot));
    }
  }

  /** A task that keeps its slot and never had the lock. */
  lemma WaitedKeeps(s: State, t: TaskId, phase: Phase)
    requires Inv(s) && t in s.tasks && !s.tasks[t].HasLock() && !phase.HasLock()
    requires phase.key == s.tasks[t].key && phase.slot == s.tasks[t].slot
    ensures Inv(s.(tasks := s.tasks[t := phase]))
  {
    hide CallersHeld, Kept;
  }

  lemma HandlesKeep(s: State, step: Step)
    requires Inv(s) && Enabled(s, step) && (step.TakeEvicted? || step.Share? || step.Release?)
    ensures Inv(Apply(s, step))
  {
  }

  /** Every step keeps the invariant. */
  lemma StepKeeps(s: State, step: Step)
    requires Inv(s) && Enabled(s, step)
    ensures Inv(Apply(s, step))
  {
    hide Inv, Unused, Alive, ValueCount, Entered, Moved;
    match step
    case Begin(t, op, key, spare, at, gone) => BeginKeeps(s, t, op, key, spare, at, gone);
    case Enter(t) => EnterKeeps(s, t);
    case Leave(t) => LeaveKeeps(s, t);
    case Peek(t, key, counting, at) => PeekKeeps(s, t, key, counting, at);
    case TryLock(t) => TryLockKeeps(s, t);
    case CloseIdle(_, _, gone) => ClosedKeeps(s, gone);
    case TakeEvicted => HandlesKeep(s, step);
    case Share(_) => HandlesKeep(s, step);
    case Release(_) => HandlesKeep(s, step);
    case Opened(t, v) => OpenedKeeps(s, t, v);
    case Look(t) => LookKeeps(s, t);
    case Drained(_) => TakerKeeps(s, step);
    case GiveUp(_) => TakerKeeps(s, step);
    case PutBack(_) => TakerKeeps(s, step);
    case _ => HolderKeeps(s, step);
  }

  lemma {:induction false} RunKeeps(s: State, steps: seq<Step>)
    requires Inv(s) && IsRun(s, steps)
    ensures Inv(After(s, steps))
    decreases |steps|
  {
    if steps != [] {
      StepKeeps(s, steps[0]);
      RunKeeps(Apply(s, steps[0]), steps[1..]);
    }
  }

  // --- A critical section is one step ----------------------------------------------------------

  ghost predicate OffMapLock(steps: seq<Step>) {
    forall i :: 0 <= i < |steps| ==> !TakesMapLock(steps[i])
  }

  /** `k` is unused at some moment of the run. */
  ghost predicate WasUnused(s: State, steps: seq<Step>, k: Key)
    requires IsRun(s, steps)
    decreases |steps|
  {
    k in Unused(s) || (steps != [] && WasUnused(Apply(s, steps[0]), steps[1..], k))
  }

  lemma {:induction false} StillUnused(s: State, steps: seq<Step>, k: Key)
    requires Inv(s) && IsRun(s, steps) && OffMapLock(steps)
    ensures After(s, steps).book.open == s.book.open
    ensures WasUnused(s, steps, k) ==> k in Unused(After(s, steps))
    decreases |steps|
  {
    hide Inv, Enabled, Apply, Unused;
    if steps != [] {
      assert !TakesMapLock(steps[0]);
      assert forall i :: 0 <= i < |steps[1..]| ==> steps[1..][i] == steps[i + 1];
      var s' := Apply(s, steps[0]);
      StepKeeps(s, steps[0]);
      MapStands(s, steps[0]);
      if k in Unused(s) {
        UnusedStays(s, steps[0], k);
      }
      StillUnused(s', steps[1..], k);
      assert k in Unused(s') ==> WasUnused(s', steps[1..], k);
    }
  }

  lemma MapStands(s: State, step: Step)
    requires Enabled(s, step) && !TakesMapLock(step)
    ensures Apply(s, step).book.open == s.book.open
  {
    hide Enabled, Entered, Moved, Unused, Alive, ValueCount;
    match step
    case TakeEvicted =>
    case Share(_) =>
    case Release(_) =>
    case Leave(_) =>
    case ThenDone(_) => OtherStaysThere(s, step);
    case Unlock(_) => OtherStaysThere(s, step);
    case Look(_) => OtherStaysThere(s, step);
    case TryLock(_) => OtherStaysThere(s, step);
    case Enter(_) => OtherStaysThere(s, step);
    case _ => HolderStaysThere(s, step);
  }

  /**
   `make_room` in the course of a run: whatever the others do while its passes read, each entry found unused
   having been so at some moment, what it closes is what one step at the end may close.
   */
  lemma PassesAreOneStep(s: State, steps: seq<Step>, t: TaskId, key: Key, spare: SlotId, seen: seq<set<Key>>,
      gone: set<Key>)
    requires Inv(s) && IsRun(s, steps) && OffMapLock(steps) && key !in s.book.open
    requires forall i, k :: 0 <= i < |seen| && k in seen[i] ==> WasUnused(s, steps, k)
    requires ClosedInPasses(s.book.open, seen, After(s, steps).capacity, gone)
    requires t !in After(s, steps).tasks && spare !in After(s, steps).slots
    ensures CanBegin(After(s, steps), t, key, spare, gone)
  {
    hide Inv, Unused, WasUnused, ClosedInPasses, IsRun, After;
    var s' := After(s, steps);
    StillUnused(s, steps, key);
    forall i | 0 <= i < |seen| ensures seen[i] <= Unused(s') {
      forall k | k in seen[i] ensures k in Unused(s') {
        StillUnused(s, steps, k);
      }
    }
    PassesMayClose(s.book.open, seen, s'.capacity, gone, Unused(s'));
  }

  /** And so is `close_idle`, which reads each entry once. */
  lemma ScanIsOneStep(s: State, steps: seq<Step>, now: int, idle: nat, gone: set<Key>)
    requires Inv(s) && IsRun(s, steps) && OffMapLock(steps)
    requires forall k ::
        k in gone ==> k in s.book.open && WasUnused(s, steps, k) && Since(now, s.book.open[k].at) >= idle
    ensures Enabled(After(s, steps), CloseIdle(now, idle, gone))
  {
    hide Inv, Unused, WasUnused, IsRun, After;
    forall k | k in gone ensures k in IdleKeys(After(s, steps).book.open, Unused(After(s, steps)), now, idle) {
      StillUnused(s, steps, k);
    }
  }
}
