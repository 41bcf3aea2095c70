/**
 What the registry hands its callers: over every run of `RegistryProtocol`, who is given a handle to which value,
 and for how long the registry keeps one.
 */
module RegistryHandles {
  import opened Wrappers
  import opened RegistryMap
  import opened RegistryProtocol
  import opened RegistrySafety

  /** What is in the slot the map has for `k`. */
  ghost function ValueAt(s: State, k: Key): Option<ValueId> {
    if k in s.book.open && s.book.open[k].slot in s.slots then s.slots[s.book.open[k].slot].value else None
  }

  ghost predicate LockedAt(s: State, k: Key) {
    k in s.book.open && s.book.open[k].slot in s.slots && s.slots[s.book.open[k].slot].lock.Some?
  }

  function HandleTo(value: Option<ValueId>): multiset<ValueId> {
    if value.Some? then multiset{value.value} else multiset{}
  }

  // --- One step --------------------------------------------------------------------------------

  /** `step` gives somebody a handle to `v`: a copy, a value just opened, or the one in the slot of its key. */
  ghost predicate Hands(s: State, step: Step, v: ValueId)
    requires Enabled(s, step)
  {
    || step == Share(v)
    || (step.Opened? && step.value == v)
    || ((step.Look? || (step.Enter? && s.tasks[step.task].op.Get?)) && ValueAt(s, s.tasks[step.task].key) == Some(v))
  }

  /** A task inside a slot is inside the one the map has at its key. */
  lemma AtItsKey(s: State, t: TaskId)
    requires Inv(s) && t in s.tasks
    ensures At(s, t) && s.tasks[t].key in s.book.open && s.book.open[s.tasks[t].key].slot == s.tasks[t].slot
    ensures ValueAt(s, s.tasks[t].key) == s.slots[s.tasks[t].slot].value
  {
  }

  /** What `step` leaves of the handles to `v`. */
  ghost function HandlesAfter(s: State, step: Step, v: ValueId): int
    requires Enabled(s, step)
  {
    s.callers[v] + (if Hands(s, step, v) then 1 else 0) - (if step == Release(v) then 1 else 0)
  }

  lemma EnterHands(s: State, t: TaskId, v: ValueId)
    requires Inv(s) && Enabled(s, Enter(t))
    ensures Apply(s, Enter(t)).callers[v] == HandlesAfter(s, Enter(t), v)
  {
    AtItsKey(s, t);
    hide Inv, ValueAt, Enabled, Apply, Moved, Entered;
    EnteredCallers(s, t);
  }

  lemma EnteredCallers(s: State, t: TaskId)
    requires Enabled(s, Enter(t))
    ensures At(s, t) && s.tasks[t].Locked?
    ensures Apply(s, Enter(t)).callers
         == s.callers + if s.tasks[t].op.Get? then HandleTo(s.slots[s.tasks[t].slot].value) else multiset{}
  {
    hide CanBegin, Alive, Unused, IdleKeys, ValueCount, MayClose;
  }

  lemma LookHands(s: State, t: TaskId, v: ValueId)
    requires Inv(s) && Enabled(s, Look(t))
    ensures Apply(s, Look(t)).callers[v] == HandlesAfter(s, Look(t), v)
  {
    AtItsKey(s, t);
    hide Inv, ValueAt;
  }

  lemma OthersHand(s: State, step: Step, v: ValueId)
    requires Enabled(s, step) && !step.Enter? && !step.Look?
    ensures Apply(s, step).callers[v] == HandlesAfter(s, step, v)
  {
    hide CanBegin, Alive, Unused, IdleKeys, ValueCount, ValueAt, MayClose;
  }

  /**
   The handles to a value are one more after exactly the steps that hand it out, and one fewer after one is dropped.
   */
  lemma HandlesChange(s: State, step: Step, v: ValueId)
    requires Inv(s) && Enabled(s, step)
    ensures Apply(s, step).callers[v]
         == s.callers[v] + (if Hands(s, step, v) then 1 else 0) - (if step == Release(v) then 1 else 0)
  {
    hide Inv, Enabled, Apply, Hands;
    match step
    case Enter(t) => EnterHands(s, t, v);
    case Look(t) => LookHands(s, t, v);
    case _ => OthersHand(s, step, v);
  }

  /** A handle is taken from nobody: the handles to a value are as many as they were, or more, until one is dropped. */
  lemma {:induction false} HandlesStay(s: State, steps: seq<Step>, v: ValueId)
    requires Inv(s) && IsRun(s, steps) && Release(v) !in steps
    ensures After(s, steps).callers[v] >= s.callers[v]
    decreases |steps|
  {
    hide Inv, Enabled, Apply, Hands;
    if steps != [] {
      assert steps[0] in steps;
      HandlesChange(s, steps[0], v);
      StepKeeps(s, steps[0]);
      HandlesStay(Apply(s, steps[0]), steps[1..], v);
    }
  }

  // --- Inside a slot ---------------------------------------------------------------------------

  /** No other task's step touches the slot of a task that has its lock. */
  lemma OthersLeaveItsSlot(s: State, step: Step, t: TaskId)
    requires Inv(s) && Enabled(s, step) && t in s.tasks && s.tasks[t].HasLock() && !By(step, t)
    ensures t in Apply(s, step).tasks && Apply(s, step).tasks[t] == s.tasks[t]
    ensures ValueAt(Apply(s, step), s.tasks[t].key) == ValueAt(s, s.tasks[t].key)
  {
    OthersLeaveIt(s, step, t);
    AtItsKey(s, t);
    StepKeeps(s, step);
    AtItsKey(Apply(s, step), t);
    OthersLeaveTheSlot(s, step, t);
  }

  predicate ByHolder(step: Step) {
    step.Enter? || step.Opened? || step.OpenFailed? || step.Drained? || step.GiveUp? || step.PutBack? || step.ThenDone?
    || step.Unlock? || step.Look?
  }

  lemma HolderTouchesItsOwn(s: State, step: Step, id: SlotId)
    requires Enabled(s, step) && ByHolder(step)
    ensures step.task in s.tasks && s.tasks[step.task].HasLock()
    ensures id != s.tasks[step.task].slot && id in s.slots ==>
              id in Apply(s, step).slots && Apply(s, step).slots[id] == s.slots[id]
  {
    hide CanBegin, Alive, Unused, IdleKeys, ValueCount, MayClose;
  }

  lemma UnlockedTouches(s: State, step: Step, id: SlotId)
    requires Enabled(s, step) && !ByHolder(step)
    requires id in s.slots && s.slots[id].lock.Some?
    ensures id in Apply(s, step).slots ==> Apply(s, step).slots[id] == s.slots[id]
  {
    hide Unused, IdleKeys, ValueCount, Referenced, MayClose;
  }

  lemma OthersLeaveTheSlot(s: State, step: Step, t: TaskId)
    requires Inv(s) && Enabled(s, step) && t in s.tasks && s.tasks[t].HasLock() && !By(step, t)
    requires t in Apply(s, step).tasks && Apply(s, step).tasks[t] == s.tasks[t]
    ensures var id := s.tasks[t].slot;
            id in s.slots && (id in Apply(s, step).slots ==> Apply(s, step).slots[id] == s.slots[id])
  {
    hide SlotsHeld, ValuesHeld, CallersHeld, Kept, Enabled, Apply;
    var id := s.tasks[t].slot;
    assert id in s.slots && s.slots[id].lock == Some(t);
    if ByHolder(step) {
      HolderTouchesItsOwn(s, step, id);
      OtherHolderElsewhere(s, step.task, t);
    } else {
      UnlockedTouches(s, step, id);
    }
  }

  lemma OtherHolderElsewhere(s: State, r: TaskId, t: TaskId)
    requires LocksHeld(s.slots, s.tasks) && t in s.tasks && r in s.tasks && r != t
    requires s.tasks[t].HasLock() && s.tasks[r].HasLock()
    ensures s.tasks[t].slot != s.tasks[r].slot
  {
  }

  // --- A whole operation -----------------------------------------------------------------------

  /** The handles `t` has been given over a run, by its own steps. */
  ghost function Handed(s: State, steps: seq<Step>, t: TaskId): multiset<ValueId>
    requires IsRun(s, steps)
    decreases |steps|
  {
    if steps == [] then multiset{}
    else HandedBy(s, steps[0], t) + Handed(Apply(s, steps[0]), steps[1..], t)
  }

  ghost function HandedBy(s: State, step: Step, t: TaskId): multiset<ValueId>
    requires Enabled(s, step)
  {
    if By(step, t) then Apply(s, step).callers - s.callers else multiset{}
  }

  /** `t` begins nothing in `steps`. */
  ghost predicate BeginsNothing(steps: seq<Step>, t: TaskId) {
    forall i :: 0 <= i < |steps| ==> !Begins(steps[i], t)
  }

  predicate Begins(step: Step, t: TaskId) {
    (step.Begin? || step.Peek?) && step.task == t
  }

  /**
   An operation on `key`, of which `op` is none for `opened`: what it has been handed, whether its `open` has
   failed, and the values there were when it began.
   */
  datatype Course = Course(op: Option<Op>, key: Key, handed: multiset<ValueId>, failed: bool, known: set<ValueId>)

  /** What the operation has been handed by the time `t` is where it is. */
  ghost predicate OnCourse(s: State, t: TaskId, c: Course) {
    && c.known <= s.born.Keys
    && (t in s.tasks && !s.tasks[t].Leaving? ==>
          && s.tasks[t].key == c.key
          && if s.tasks[t].Unlocking? then Answered(s, c)
             else c.handed == multiset{} && !c.failed && Underway(s.tasks[t], c.op))
  }

  predicate Underway(phase: Phase, op: Option<Op>) {
    match phase
    case Waiting(o, _, _) => op == Some(o)
    case Locked(o, _, _) => op == Some(o)
    case Opening(_, _) => op == Some(Get) || op == Some(Reopen)
    case Draining(_, _, _) => op == Some(Take)
    case Returning(_, _, _) => op == Some(Take)
    case Working(_, _) => op == Some(Take)
    case Peeking(_, _) => op.None?
    case Looking(_, _) => op.None?
    case _ => false
  }

  /**
   A `take_then` is handed nothing. Anything else is handed what the slot then holds, and nothing but that: there is
   nothing there exactly when its `open` failed, or `opened` found nothing; and what a `reopen` leaves there is new.
   */
  ghost predicate Answered(s: State, c: Course) {
    var value := ValueAt(s, c.key);
    && c.handed == (if c.op == Some(Take) then multiset{} else HandleTo(value))
    && (c.op == Some(Get) || c.op == Some(Reopen) ==> (value.None? <==> c.failed))
    && (c.op == Some(Reopen) && value.Some? ==> value.value !in c.known)
  }

  ghost function Onward(s: State, step: Step, t: TaskId, c: Course): Course
    requires Enabled(s, step)
  {
    c.(handed := c.handed + HandedBy(s, step, t), failed := c.failed || step == OpenFailed(t))
  }

  lemma OthersKeepPlace(s: State, step: Step, t: TaskId)
    requires Inv(s) && Enabled(s, step) && !By(step, t)
    ensures t in Apply(s, step).tasks <==> t in s.tasks
    ensures t in s.tasks ==> Apply(s, step).tasks[t] == s.tasks[t]
    ensures t in s.tasks && s.tasks[t].Unlocking? ==>
              ValueAt(Apply(s, step), s.tasks[t].key) == ValueAt(s, s.tasks[t].key)
    ensures s.born.Keys <= Apply(s, step).born.Keys
  {
    hide Inv, ValueAt, Enabled, Apply;
    BornStays(s, step);
    if t in s.tasks {
      OthersLeaveIt(s, step, t);
      if s.tasks[t].HasLock() {
        OthersLeaveItsSlot(s, step, t);
      }
    } else {
      OthersBringItNot(s, step, t);
    }
  }

  lemma OthersKeepCourse(s: State, step: Step, t: TaskId, c: Course)
    requires Inv(s) && Enabled(s, step) && !By(step, t) && OnCourse(s, t, c)
    ensures OnCourse(Apply(s, step), t, Onward(s, step, t, c))
  {
    hide Inv, ValueAt, Enabled, Apply, Underway;
    OthersKeepPlace(s, step, t);
    assert c.handed + multiset{} == c.handed;
    assert Onward(s, step, t, c) == c;
  }

  lemma BornStays(s: State, step: Step)
    requires Enabled(s, step)
    ensures s.born.Keys <= Apply(s, step).born.Keys
  {
    hide CanBegin, Alive, Unused, IdleKeys, ValueCount, MayClose;
  }

  lemma OthersBringItNot(s: State, step: Step, t: TaskId)
    requires Enabled(s, step) && !By(step, t) && t !in s.tasks
    ensures t !in Apply(s, step).tasks
  {
    hide Unused, IdleKeys, ValueCount, MayClose, Alive;
  }

  lemma EnterKeepsCourse(s: State, t: TaskId, c: Course)
    requires Inv(s) && Enabled(s, Enter(t)) && OnCourse(s, t, c)
    ensures OnCourse(Apply(s, Enter(t)), t, Onward(s, Enter(t), t, c))
  {
    hide Inv, ValueAt, Enabled, Apply, Moved, Entered;
    EnteredCallers(s, t);
    EnteredPhase(s, t);
    AtItsKey(s, t);
    StepKeeps(s, Enter(t));
    AtItsKey(Apply(s, Enter(t)), t);
    BornStays(s, Enter(t));
    HandedIs(s.callers, HandleTo(s.slots[s.tasks[t].slot].value), c.handed);
    HandedIs(s.callers, multiset{}, c.handed);
  }

  lemma HandedIs(before: multiset<ValueId>, more: multiset<ValueId>, handed: multiset<ValueId>)
    ensures before + more - before == more && multiset{} + more == more && handed + multiset{} == handed
  {
  }

  lemma EnteredPhase(s: State, t: TaskId)
    requires Enabled(s, Enter(t))
    ensures var p, s' := s.tasks[t], Apply(s, Enter(t));
            && At(s, t) && p.Locked? && At(s', t) && s'.tasks[t].key == p.key && s'.tasks[t].slot == p.slot
            && (p.op.Get? && s.slots[p.slot].value.Some? ==>
                  s'.tasks[t].Unlocking? && s'.slots[p.slot].value == s.slots[p.slot].value)
            && (p.op.Reopen? || (p.op.Get? && s.slots[p.slot].value.None?) ==> s'.tasks[t].Opening?)
            && (p.op.Take? ==> s'.tasks[t].Draining? || s'.tasks[t].Working?)
  {
    hide CanBegin, Alive, Unused, IdleKeys, ValueCount, MayClose;
  }

  lemma OpenedKeepsCourse(s: State, t: TaskId, v: ValueId, c: Course)
    requires Inv(s) && Enabled(s, Opened(t, v)) && OnCourse(s, t, c)
    ensures OnCourse(Apply(s, Opened(t, v)), t, Onward(s, Opened(t, v), t, c))
  {
    hide Inv, ValueAt, CanBegin, Alive, Unused, IdleKeys, ValueCount, MayClose;
    StepKeeps(s, Opened(t, v));
    AtItsKey(Apply(s, Opened(t, v)), t);
    HandedIs(s.callers, multiset{v}, c.handed);
  }

  lemma OpenFailedKeepsCourse(s: State, t: TaskId, c: Course)
    requires Inv(s) && Enabled(s, OpenFailed(t)) && OnCourse(s, t, c)
    ensures OnCourse(Apply(s, OpenFailed(t)), t, Onward(s, OpenFailed(t), t, c))
  {
    hide Inv, ValueAt, Enabled, Apply, Moved;
    OpenFailedLeavesEmpty(s, t);
    StepKeeps(s, OpenFailed(t));
    AtItsKey(Apply(s, OpenFailed(t)), t);
    HandedIs(s.callers, multiset{}, c.handed);
  }

  lemma OpenFailedLeavesEmpty(s: State, t: TaskId)
    requires Inv(s) && Enabled(s, OpenFailed(t))
    ensures t in s.tasks && s.tasks[t].Opening?
    ensures var s' := Apply(s, OpenFailed(t));
            && s'.callers == s.callers && s'.born == s.born
            && At(s', t) && s'.tasks[t] == Unlocking(s.tasks[t].key, s.tasks[t].slot)
                && s'.slots[s'.tasks[t].slot].value.None?
  {
    EmptyWhileOpening(s, t);
    hide Inv, CanBegin, Alive, Unused, IdleKeys, ValueCount, MayClose;
  }

  lemma EmptyWhileOpening(s: State, t: TaskId)
    requires Inv(s) && t in s.tasks && s.tasks[t].Opening?
    ensures At(s, t) && s.slots[s.tasks[t].slot].value.None?
  {
  }

  lemma LookKeepsCourse(s: State, t: TaskId, c: Course)
    requires Inv(s) && Enabled(s, Look(t)) && OnCourse(s, t, c)
    ensures OnCourse(Apply(s, Look(t)), t, Onward(s, Look(t), t, c))
  {
    hide Inv, ValueAt, CanBegin, Alive, Unused, IdleKeys, ValueCount, MayClose;
    StepKeeps(s, Look(t));
    AtItsKey(Apply(s, Look(t)), t);
    HandedIs(s.callers, HandleTo(s.slots[s.tasks[t].slot].value), c.handed);
  }

  predicate IsRest(step: Step, t: TaskId) {
    By(step, t) && !Begins(step, t) && !step.Enter? && !step.Opened? && !step.OpenFailed? && !step.Look?
  }

  lemma RestHandsNothing(s: State, step: Step, t: TaskId)
    requires Enabled(s, step) && IsRest(step, t)
    ensures Apply(s, step).callers == s.callers && Apply(s, step).born == s.born
  {
    hide CanBegin, Alive, Unused, IdleKeys, ValueCount, MayClose;
  }

  /** Only the steps of `take_then` among the rest come to the end of an operation. */
  lemma RestMoves(s: State, step: Step, t: TaskId, op: Option<Op>)
    requires Enabled(s, step) && IsRest(step, t)
    ensures t in s.tasks
    ensures t in Apply(s, step).tasks && !Apply(s, step).tasks[t].Leaving? ==>
              && Apply(s, step).tasks[t].key == s.tasks[t].key
              && !s.tasks[t].Leaving? && !s.tasks[t].Unlocking?
              && (Underway(s.tasks[t], op) ==>
                    if Apply(s, step).tasks[t].Unlocking? then op == Some(Take)
                        else Underway(Apply(s, step).tasks[t], op))
  {
    hide CanBegin, Alive, Unused, IdleKeys, ValueCount, MayClose;
  }

  lemma RestKeepsCourse(s: State, step: Step, t: TaskId, c: Course)
    requires Enabled(s, step) && IsRest(step, t) && OnCourse(s, t, c)
    ensures OnCourse(Apply(s, step), t, Onward(s, step, t, c))
  {
    hide ValueAt, Enabled, Apply, Underway;
    RestHandsNothing(s, step, t);
    RestMoves(s, step, t, c.op);
    HandedIs(s.callers, multiset{}, c.handed);
  }

  lemma StepKeepsCourse(s: State, step: Step, t: TaskId, c: Course)
    requires Inv(s) && Enabled(s, step) && !Begins(step, t) && OnCourse(s, t, c)
    ensures OnCourse(Apply(s, step), t, Onward(s, step, t, c))
  {
    hide Inv, Enabled, Apply, OnCourse, Onward;
    if !By(step, t) {
      OthersKeepCourse(s, step, t, c);
    } else {
      match step
      case Enter(_) => EnterKeepsCourse(s, t, c);
      case Opened(_, v) => OpenedKeepsCourse(s, t, v, c);
      case OpenFailed(_) => OpenFailedKeepsCourse(s, t, c);
      case Look(_) => LookKeepsCourse(s, t, c);
      case _ => RestKeepsCourse(s, step, t, c);
    }
  }

  lemma {:induction false} RunKeepsCourse(s: State, steps: seq<Step>, t: TaskId, c: Course)
    requires Inv(s) && IsRun(s, steps) && BeginsNothing(steps, t) && OnCourse(s, t, c)
    ensures OnCourse(
              After(s, steps), t,
              c.(handed := c.handed + Handed(s, steps, t), failed := c.failed || OpenFailed(t) in steps))
    decreases |steps|
  {
    hide Inv, Enabled, Apply, OnCourse, HandedBy;
    if steps == [] {
      assert c.handed + multiset{} == c.handed;
    } else {
      var rest := steps[1..];
      assert forall i :: 0 <= i < |rest| ==> rest[i] == steps[i + 1];
      StepKeeps(s, steps[0]);
      StepKeepsCourse(s, steps[0], t, c);
      RunKeepsCourse(Apply(s, steps[0]), rest, t, Onward(s, steps[0], t, c));
      assert c.handed + HandedBy(s, steps[0], t) + Handed(Apply(s, steps[0]), rest, t)
          == c.handed + Handed(s, steps, t);
      assert steps == [steps[0]] + rest;
    }
  }

  /** What an operation is on, and as what. */
  function CourseOf(step: Step, known: set<ValueId>): Course
    requires step.Begin? || step.Peek?
  {
    Course(if step.Begin? then Some(step.op) else None, step.key, multiset{}, false, known)
  }

  lemma BegunOnCourse(s: State, step: Step)
    requires Inv(s) && Enabled(s, step) && (step.Begin? || step.Peek?)
    ensures OnCourse(Apply(s, step), step.task, CourseOf(step, s.born.Keys))
    ensures Apply(s, step).callers == s.callers
  {
    hide Inv, Unused, ValueCount, MayClose, Alive, ValueAt;
  }

  /**
   Whatever else goes on, by the time an operation is done with its slot its task has been handed exactly one
   handle, to the value the slot then holds: `get_or_open` and `opened` to what was there, or what `open` made;
   `reopen` to one that is new. It has been handed none exactly when `open` failed, or `opened` found nothing there;
   and a `take_then` never is.
   */
  lemma HandsWhatItHolds(s: State, steps: seq<Step>, t: TaskId)
    requires Inv(s) && IsRun(s, steps) && steps != [] && Begins(steps[0], t) && BeginsNothing(steps[1..], t)
    requires t in After(s, steps).tasks && After(s, steps).tasks[t].Unlocking?
    ensures var c := CourseOf(steps[0], s.born.Keys);
            After(s, steps).tasks[t].key == c.key
            && Answered(
                 After(s, steps), c.(handed := Handed(s, steps, t), failed := OpenFailed(t) in steps))
  {
    hide Inv, Enabled, Apply, Answered;
    var c := CourseOf(steps[0], s.born.Keys);
    StepKeeps(s, steps[0]);
    BegunOnCourse(s, steps[0]);
    RunKeepsCourse(Apply(s, steps[0]), steps[1..], t, c);
    assert HandedBy(s, steps[0], t) == multiset{};
    assert steps == [steps[0]] + steps[1..];
    assert multiset{} + Handed(Apply(s, steps[0]), steps[1..], t) == Handed(s, steps, t);
  }

  // --- For how long a value is kept -----------------------------------------------------------

  /**
   `step` gives up what the registry has of `k`: a `reopen` discards it, a `take_then` has it alone, or it is
   closed.
   */
  ghost predicate LetsGo(s: State, step: Step, k: Key)
    requires Enabled(s, step)
  {
    || (step.Enter? && s.tasks[step.task].op.Reopen? && s.tasks[step.task].key == k)
    || (step.Drained? && s.tasks[step.task].key == k)
    || (step.Begin? && k in step.gone)
    || (step.CloseIdle? && k in step.gone)
  }

  /** With its entry, its slot and whoever has its lock as they were, a key has what it had. */
  lemma FramedRegistered(s: State, s': State, k: Key, v: ValueId)
    requires Registered(s, k, v)
    requires k in s'.book.open && s'.book.open[k].slot == s.book.open[k].slot
    requires s.book.open[k].slot in s'.slots && s'.slots[s.book.open[k].slot] == s.slots[s.book.open[k].slot]
    requires forall r {:trigger s.tasks[r]} ::
        r in s.tasks && s.tasks[r].Takes() ==> r in s'.tasks && s'.tasks[r] == s.tasks[r]
    ensures Registered(s', k, v)
  {
  }

  lemma BeginRegistered(s: State, step: Step, k: Key, v: ValueId)
    requires Inv(s) && Enabled(s, step) && step.Begin? && Registered(s, k, v)
    ensures Registered(Apply(s, step), k, v) <==> k !in step.gone
  {
    hide Unused, Alive, SlotsHeld, LocksHeld, ValuesHeld, CallersHeld, Kept;
    if step.key !in s.book.open {
      InsertedSlots(s, step.task, step.op, step.key, step.spare, step.at, step.gone);
      EntryHasSlotOfItsKey(s, k);
    }
    if k !in step.gone {
      FramedRegistered(s, Apply(s, step), k, v);
    }
  }

  lemma EntryHasSlotOfItsKey(s: State, k: Key)
    requires Inv(s) && k in s.book.open
    ensures s.book.open[k].slot in s.slots && s.slots[s.book.open[k].slot].key == k
  {
  }

  lemma CloseIdleRegistered(s: State, step: Step, k: Key, v: ValueId)
    requires Inv(s) && Enabled(s, step) && step.CloseIdle? && Registered(s, k, v)
    ensures Registered(Apply(s, step), k, v) <==> k !in step.gone
  {
    ClosedSlots(s, step.gone);
    hide Unused, Alive;
    if k !in step.gone {
      FramedRegistered(s, Apply(s, step), k, v);
    }
  }

  lemma HolderKeepsTheRest(s: State, step: Step)
    requires Enabled(s, step) && ByHolder(step)
    ensures Apply(s, step).book == s.book
    ensures forall r {:trigger s.tasks[r]} ::
        r in s.tasks && r != step.task ==> r in Apply(s, step).tasks && Apply(s, step).tasks[r] == s.tasks[r]
  {
    hide CanBegin, Alive, Unused, IdleKeys, ValueCount, MayClose;
  }

  lemma SameSlotRegistered(s: State, s': State, k: Key, v: ValueId)
    requires Registered(s, k, v) && s'.book == s.book
    requires var id := s.book.open[k].slot;
             && id in s'.slots && s'.slots[id] == s.slots[id]
             && (s.slots[id].lock.Some? && s.slots[id].lock.value in s.tasks ==>
                   s.slots[id].lock.value in s'.tasks
                   && s'.tasks[s.slots[id].lock.value] == s.tasks[s.slots[id].lock.value])
    ensures Registered(s', k, v)
  {
  }

  lemma RegisteredIsThere(s: State, k: Key, v: ValueId)
    requires Registered(s, k, v)
    ensures k in s.book.open && s.book.open[k].slot in s.slots
  {
  }

  lemma ElsewhereRegistered(s: State, step: Step, k: Key, v: ValueId)
    requires Inv(s) && Enabled(s, step) && ByHolder(step) && Registered(s, k, v)
    requires step.task in s.tasks && s.tasks[step.task].key != k
    ensures Registered(Apply(s, step), k, v)
  {
    hide Inv, Enabled, Apply, Registered, At;
    RegisteredIsThere(s, k, v);
    var id := s.book.open[k].slot;
    AtItsKey(s, step.task);
    KeysApart(s, s.tasks[step.task].key, k);
    HolderTouchesItsOwn(s, step, id);
    HolderKeepsTheRest(s, step);
    if s.slots[id].lock.Some? {
      TakerIsThere(s, k, s.slots[id].lock.value);
    }
    SameSlotRegistered(s, Apply(s, step), k, v);
  }

  lemma KeysApart(s: State, j: Key, k: Key)
    requires Inv(s) && j in s.book.open && k in s.book.open && j != k
    ensures s.book.open[j].slot != s.book.open[k].slot
  {
  }

  lemma TakerIsThere(s: State, k: Key, r: TaskId)
    requires Inv(s) && k in s.book.open && s.book.open[k].slot in s.slots
    requires s.slots[s.book.open[k].slot].lock == Some(r)
    ensures r in s.tasks && s.tasks[r].key == k
  {
  }

  lemma EnterHereRegistered(s: State, t: TaskId, v: ValueId)
    requires Inv(s) && Enabled(s, Enter(t)) && Registered(s, s.tasks[t].key, v)
    ensures Registered(Apply(s, Enter(t)), s.tasks[t].key, v) <==> !s.tasks[t].op.Reopen?
  {
    AtItsKey(s, t);
    assert s.slots[s.tasks[t].slot].lock == Some(t) && s.slots[s.tasks[t].slot].value == Some(v);
    hide Inv, CanBegin, Alive, Unused, IdleKeys, ValueCount, MayClose;
  }

  lemma EnterRegistered(s: State, t: TaskId, k: Key, v: ValueId)
    requires Inv(s) && Enabled(s, Enter(t)) && Registered(s, k, v)
    ensures Registered(Apply(s, Enter(t)), k, v) <==> !LetsGo(s, Enter(t), k)
  {
    hide Inv, Apply, Registered;
    if s.tasks[t].key == k {
      EnterHereRegistered(s, t, v);
    } else {
      ElsewhereRegistered(s, Enter(t), k, v);
    }
  }

  lemma HolderHereRegistered(s: State, step: Step, v: ValueId)
    requires Inv(s) && Enabled(s, step) && ByHolder(step) && !step.Enter?
    requires step.task in s.tasks && Registered(s, s.tasks[step.task].key, v)
    ensures Registered(Apply(s, step), s.tasks[step.task].key, v) <==> !step.Drained?
  {
    AtItsKey(s, step.task);
    HolderTouchesItsOwn(s, step, 0);
    var p := s.tasks[step.task];
    assert s.slots[p.slot].lock == Some(step.task);
    assert s.slots[p.slot].value == Some(v) || (p.Takes() && p.taken == v);
    assert !p.Opening? && !p.Working?;
    hide Inv, CanBegin, Alive, Unused, IdleKeys, ValueCount, MayClose;
  }

  lemma HolderRegistered(s: State, step: Step, k: Key, v: ValueId)
    requires Inv(s) && Enabled(s, step) && ByHolder(step) && !step.Enter? && Registered(s, k, v)
    ensures Registered(Apply(s, step), k, v) <==> !LetsGo(s, step, k)
  {
    hide Inv, Apply, Registered;
    HolderTouchesItsOwn(s, step, 0);
    if s.tasks[step.task].key == k {
      HolderHereRegistered(s, step, v);
    } else {
      ElsewhereRegistered(s, step, k, v);
    }
  }

  lemma OthersRegistered(s: State, step: Step, k: Key, v: ValueId)
    requires Inv(s) && Enabled(s, step) && !ByHolder(step) && !step.Begin? && !step.CloseIdle? && Registered(s, k, v)
    ensures Registered(Apply(s, step), k, v)
  {
    hide Kept, CallersHeld, CanBegin, Unused, IdleKeys, ValueCount, MayClose;
  }

  /** What the registry has of a key it keeps until exactly then. */
  lemma KeptUntilExactly(s: State, step: Step, k: Key, v: ValueId)
    requires Inv(s) && Enabled(s, step) && Registered(s, k, v)
    ensures Registered(Apply(s, step), k, v) <==> !LetsGo(s, step, k)
  {
    hide Inv, Enabled, Apply, Registered;
    match step
    case Begin(_, _, _, _, _, _) => BeginRegistered(s, step, k, v);
    case CloseIdle(_, _, _) => CloseIdleRegistered(s, step, k, v);
    case Enter(t) => EnterRegistered(s, t, k, v);
    case _ =>
      if ByHolder(step) {
        HolderRegistered(s, step, k, v);
      } else {
        OthersRegistered(s, step, k, v);
      }
  }

  ghost predicate NeverLetsGo(s: State, steps: seq<Step>, k: Key)
    requires IsRun(s, steps)
    decreases |steps|
  {
    steps == [] || (!LetsGo(s, steps[0], k) && NeverLetsGo(Apply(s, steps[0]), steps[1..], k))
  }

  /** No `open` of `k` comes to a value. */
  ghost predicate OpensNothing(s: State, steps: seq<Step>, k: Key)
    requires IsRun(s, steps)
    decreases |steps|
  {
    steps == []
    || (!(steps[0].Opened? && s.tasks[steps[0].task].key == k) && OpensNothing(Apply(s, steps[0]), steps[1..], k))
  }

  /**
   Opened once: however many operations on `k` come and go, from when it has a value until that is let go it keeps that
   value and nothing else is opened for it.
   */
  lemma {:induction false} WarmOpensNothing(s: State, steps: seq<Step>, k: Key, v: ValueId)
    requires Inv(s) && IsRun(s, steps) && Registered(s, k, v) && NeverLetsGo(s, steps, k)
    ensures Registered(After(s, steps), k, v) && OpensNothing(s, steps, k)
    decreases |steps|
  {
    hide Inv, Enabled, Apply, Registered, LetsGo;
    if steps != [] {
      if steps[0].Opened? {
        OpeningHasNothing(s, steps[0].task, steps[0].value, k, v);
      }
      StepKeeps(s, steps[0]);
      KeptUntilExactly(s, steps[0], k, v);
      WarmOpensNothing(Apply(s, steps[0]), steps[1..], k, v);
    }
  }

  lemma OpeningHasNothing(s: State, t: TaskId, made: ValueId, k: Key, v: ValueId)
    requires Inv(s) && Enabled(s, Opened(t, made)) && Registered(s, k, v)
    ensures t in s.tasks && s.tasks[t].key != k
  {
  }

  // --- One after the other ---------------------------------------------------------------------

  /** `key` has `v`, in slot `id` that nobody has locked. */
  ghost predicate Free(s: State, key: Key, id: SlotId, value: Option<ValueId>) {
    key in s.book.open && s.book.open[key].slot == id && id in s.slots && s.slots[id] == Slot(key, None, value)
  }

  lemma WarmBegins(s: State, t: TaskId, op: Op, key: Key, spare: SlotId, at: int, id: SlotId, v: ValueId)
    requires t !in s.tasks && Free(s, key, id, Some(v))
    ensures Enabled(s, Begin(t, op, key, spare, at, {}))
    ensures var s' := Apply(s, Begin(t, op, key, spare, at, {}));
            Placed(s', t, Waiting(op, key, id), Some(v)) && s'.callers == s.callers
  {
  }

  lemma WarmAcquires(s: State, t: TaskId, op: Op, key: Key, id: SlotId, v: ValueId)
    requires Placed(s, t, Waiting(op, key, id), Some(v))
    ensures Enabled(s, Acquire(t))
    ensures var s' := Apply(s, Acquire(t)); Placed(s', t, Locked(op, key, id), Some(v)) && s'.callers == s.callers
  {
  }

  lemma WarmEnters(s: State, t: TaskId, key: Key, id: SlotId, v: ValueId)
    requires Placed(s, t, Locked(Get, key, id), Some(v))
    ensures Enabled(s, Enter(t))
    ensures var s' := Apply(s, Enter(t));
            Placed(s', t, Unlocking(key, id), Some(v)) && s'.callers == s.callers + multiset{v}
  {
  }

  /** A warm key serves whoever asks by its own steps in a row: one handle to the value there, which stays there. */
  lemma WarmKeyServesAlone(s: State, t: TaskId, key: Key, spare: SlotId, at: int, id: SlotId, v: ValueId)
    requires t !in s.tasks && Free(s, key, id, Some(v))
    ensures var steps := [Begin(t, Get, key, spare, at, {})] + ([Acquire(t)] + ([Enter(t)] + []));
            && IsRun(s, steps) && After(s, steps).callers == s.callers + multiset{v}
            && Placed(After(s, steps), t, Unlocking(key, id), Some(v))
  {
    hide Enabled, Apply, IsRun, After;
    WarmBegins(s, t, Get, key, spare, at, id, v);
    var begun := Apply(s, Begin(t, Get, key, spare, at, {}));
    WarmAcquires(begun, t, Get, key, id, v);
    var acquired := Apply(begun, Acquire(t));
    WarmEnters(acquired, t, key, id, v);
    NoSteps(Apply(acquired, Enter(t)));
    OneStep(acquired, Enter(t), []);
    OneStep(begun, Acquire(t), [Enter(t)] + []);
    OneStep(s, Begin(t, Get, key, spare, at, {}), [Acquire(t)] + ([Enter(t)] + []));
  }

  lemma PeekPlaces(s: State, t: TaskId, key: Key, counting: bool, at: int, id: SlotId)
    requires t !in s.tasks && key in s.book.open && s.book.open[key].slot == id && id in s.slots
    ensures Enabled(s, Peek(t, key, counting, at))
    ensures var s' := Apply(s, Peek(t, key, counting, at));
            t in s'.tasks && s'.tasks[t] == Peeking(key, id) && s'.slots == s.slots && s'.callers == s.callers
  {
  }

  lemma TryLockPlaces(s: State, t: TaskId, key: Key, id: SlotId)
    requires t in s.tasks && s.tasks[t] == Peeking(key, id) && id in s.slots && s.slots[id].key == key
    ensures Enabled(s, TryLock(t)) && Apply(s, TryLock(t)).callers == s.callers
    ensures if s.slots[id].lock.Some? then
              t in Apply(s, TryLock(t)).tasks && Apply(s, TryLock(t)).tasks[t] == Leaving(key, id)
            else Placed(Apply(s, TryLock(t)), t, Looking(key, id), s.slots[id].value)
  {
  }

  lemma LookPlaces(s: State, t: TaskId, key: Key, id: SlotId, value: Option<ValueId>)
    requires Placed(s, t, Looking(key, id), value)
    ensures Enabled(s, Look(t))
    ensures Placed(Apply(s, Look(t)), t, Unlocking(key, id), value)
    ensures Apply(s, Look(t)).callers == s.callers + HandleTo(value)
  {
    if value.None? {
      assert s.callers + multiset{} == s.callers;
    }
  }

  /**
   `opened` does not wait: what is there is handed out when nobody has the slot's lock, and it leaves with nothing when
   somebody has.
   */
  lemma OpenedServesAlone(s: State, t: TaskId, key: Key, counting: bool, at: int, id: SlotId)
    requires t !in s.tasks && key in s.book.open && s.book.open[key].slot == id && id in s.slots
        && s.slots[id].key == key
    ensures var tried := [Peek(t, key, counting, at)] + ([TryLock(t)] + []);
            var looked := [Peek(t, key, counting, at)] + ([TryLock(t)] + ([Look(t)] + []));
            if s.slots[id].lock.Some? then
              && IsRun(s, tried) && After(s, tried).callers == s.callers
              && t in After(s, tried).tasks && After(s, tried).tasks[t] == Leaving(key, id)
            else
              && IsRun(s, looked) && After(s, looked).callers == s.callers + HandleTo(s.slots[id].value)
              && Placed(After(s, looked), t, Unlocking(key, id), s.slots[id].value)
  {
    hide Enabled, Apply, IsRun, After;
    PeekPlaces(s, t, key, counting, at, id);
    var peeked := Apply(s, Peek(t, key, counting, at));
    TryLockPlaces(peeked, t, key, id);
    var tried := Apply(peeked, TryLock(t));
    if s.slots[id].lock.Some? {
      NoSteps(tried);
      OneStep(peeked, TryLock(t), []);
      OneStep(s, Peek(t, key, counting, at), [TryLock(t)] + []);
    } else {
      LookPlaces(tried, t, key, id, s.slots[id].value);
      NoSteps(Apply(tried, Look(t)));
      OneStep(tried, Look(t), []);
      OneStep(peeked, TryLock(t), [Look(t)] + []);
      OneStep(s, Peek(t, key, counting, at), [TryLock(t)] + ([Look(t)] + []));
    }
  }

  lemma UnlockPlaces(s: State, t: TaskId, key: Key, id: SlotId, value: Option<ValueId>)
    requires Placed(s, t, Unlocking(key, id), value)
    ensures Enabled(s, Unlock(t)) && Placed(Apply(s, Unlock(t)), t, Leaving(key, id), value)
    ensures Apply(s, Unlock(t)).callers == s.callers && Apply(s, Unlock(t)).book == s.book
  {
  }

  lemma LeaveFrees(s: State, t: TaskId, key: Key, id: SlotId, value: Option<ValueId>)
    requires Placed(s, t, Leaving(key, id), value) && key in s.book.open && s.book.open[key].slot == id
    ensures Enabled(s, Leave(t))
    ensures var s' := Apply(s, Leave(t)); t !in s'.tasks && Free(s', key, id, value) && s'.callers == s.callers
  {
  }

  /** A task that is done leaves the slot unlocked and as it is, and is gone. */
  lemma DoneIsGone(s: State, t: TaskId, key: Key, id: SlotId, value: Option<ValueId>)
    requires Placed(s, t, Unlocking(key, id), value) && key in s.book.open && s.book.open[key].slot == id
    ensures var steps := [Unlock(t)] + ([Leave(t)] + []);
            && IsRun(s, steps) && After(s, steps).callers == s.callers
            && t !in After(s, steps).tasks && Free(After(s, steps), key, id, value)
  {
    hide Enabled, Apply, IsRun, After;
    UnlockPlaces(s, t, key, id, value);
    var unlocked := Apply(s, Unlock(t));
    LeaveFrees(unlocked, t, key, id, value);
    NoSteps(Apply(unlocked, Leave(t)));
    OneStep(unlocked, Leave(t), []);
    OneStep(s, Unlock(t), [Leave(t)] + []);
  }
}
