/** What the registry promises its callers, over every run of `RegistryProtocol`. */
module RegistrySafety {
  import opened Wrappers
  import opened RegistryMap
  import opened RegistryProtocol

  /** In every run the invariant holds: see `Inv`. */
  lemma InvInEveryRun(capacity: nat, steps: seq<Step>)
    requires IsRun(Init(capacity), steps)
    ensures Inv(After(Init(capacity), steps))
  {
    RunKeeps(Init(capacity), steps);
  }

  /** At most one task is inside a key's slot, so at most one open, reopen or `then` runs per key. */
  lemma OneInsidePerKey(s: State, t: TaskId, r: TaskId)
    requires Inv(s)
    requires t in s.tasks && r in s.tasks && s.tasks[t].key == s.tasks[r].key
    requires s.tasks[t].HasLock() && s.tasks[r].HasLock()
    ensures t == r
  {
    assert s.tasks[t].slot == s.tasks[r].slot;
  }

  // --- At most one value per key ---------------------------------------------------------------

  /** `v` is what key `k`'s slot holds, or what a `take_then` inside that slot is waiting for. */
  ghost predicate Registered(s: State, k: Key, v: ValueId) {
    && k in s.book.open && s.book.open[k].slot in s.slots
    && var slot := s.slots[s.book.open[k].slot];
       slot.value == Some(v) || (slot.lock.Some? && DrainedBy(s.tasks, slot.lock.value, v))
  }

  ghost predicate DrainedBy(tasks: map<TaskId, Phase>, t: TaskId, v: ValueId) {
    t in tasks && tasks[t].Takes() && tasks[t].taken == v
  }

  /** Every caller of key `k` holds the value the registry has at `k`. */
  ghost predicate Shared(s: State, k: Key) {
    forall v :: v in s.callers && Born(s.born, v, k) ==> Registered(s, k, v)
  }

  /** The values of key `k` anything still holds. */
  ghost function Live(s: State, k: Key): set<ValueId> {
    set v | v in s.born && s.born[v] == k && ValueCount(s, v) > 0
  }

  lemma RegisteredOnce(s: State, k: Key, v: ValueId, w: ValueId)
    requires Inv(s) && Registered(s, k, v) && Registered(s, k, w)
    ensures v == w
  {
  }

  lemma LiveIsRegistered(s: State, k: Key, v: ValueId)
    requires Inv(s) && Shared(s, k) && v in Live(s, k)
    ensures Registered(s, k, v)
  {
  }

  lemma AtMostOneLive(s: State, k: Key)
    requires Inv(s) && Shared(s, k)
    ensures |Live(s, k)| <= 1
  {
    if v :| v in Live(s, k) {
      forall w | w in Live(s, k) ensures w == v {
        LiveIsRegistered(s, k, v);
        LiveIsRegistered(s, k, w);
        RegisteredOnce(s, k, v, w);
      }
      assert Live(s, k) == {v};
    }
  }

  /** Nothing of key `k` is live while its slot is being opened into or worked on. */
  lemma NoneLiveInside(s: State, t: TaskId)
    requires Inv(s) && t in s.tasks && (s.tasks[t].Opening? || s.tasks[t].Working?)
    requires Shared(s, s.tasks[t].key)
    ensures Live(s, s.tasks[t].key) == {}
  {
    var k := s.tasks[t].key;
    if v :| v in Live(s, k) {
      LiveIsRegistered(s, k, v);
      assert false;
    }
  }

  /** Whether this step is a `reopen` of `k` discarding a value a caller still holds. */
  ghost predicate DiscardsHeld(s: State, step: Step, k: Key) {
    && step.Enter? && At(s, step.task)
    && s.tasks[step.task].Locked? && s.tasks[step.task].op.Reopen? && s.tasks[step.task].key == k
    && var value := s.slots[s.tasks[step.task].slot].value;
       value.Some? && value.value in s.callers
  }

  ghost predicate NeverDiscardsHeld(s: State, steps: seq<Step>, k: Key)
    requires IsRun(s, steps)
    decreases |steps|
  {
    steps == [] || (!DiscardsHeld(s, steps[0], k) && NeverDiscardsHeld(Apply(s, steps[0]), steps[1..], k))
  }

  lemma MovedElsewhereShares(s: State, t: TaskId, phase: Phase, lock: Option<TaskId>, value: Option<ValueId>,
                             callers: multiset<ValueId>, born: map<ValueId, Key>, k: Key)
    requires Inv(s) && Shared(s, k) && At(s, t) && s.tasks[t].key != k
    requires s.tasks[t].HasLock() || s.slots[s.tasks[t].slot].lock.None?
    requires forall v :: v in callers && Born(born, v, k) ==> v in s.callers && Born(s.born, v, k)
    ensures Shared(Moved(s, t, phase, lock, value).(callers := callers, born := born), k)
  {
  }

  lemma MovedHereShares(s: State, t: TaskId, phase: Phase, lock: Option<TaskId>, value: Option<ValueId>,
                        callers: multiset<ValueId>, born: map<ValueId, Key>, k: Key)
    requires Inv(s) && At(s, t) && s.tasks[t].key == k
    requires forall v :: v in callers && Born(born, v, k) ==>
               value == Some(v) || (phase.Takes() && phase.taken == v && lock == Some(t))
    ensures Shared(Moved(s, t, phase, lock, value).(callers := callers, born := born), k)
  {
  }

  lemma MovedShares(s: State, t: TaskId, phase: Phase, value: Option<ValueId>, callers: multiset<ValueId>,
      born: map<ValueId, Key>, k: Key)
    requires Inv(s) && Shared(s, k) && At(s, t)
    requires s.tasks[t].HasLock() || s.slots[s.tasks[t].slot].lock.None?
    requires forall v :: v in callers && Born(born, v, k) ==>
               (v in s.callers && Born(s.born, v, k)) || (s.tasks[t].key == k && value == Some(v))
    requires s.tasks[t].key == k ==> forall v :: Registered(s, k, v) && v in s.callers ==>
               value == Some(v) || (phase.Takes() && phase.taken == v)
    ensures var moved := Moved(s, t, phase, if phase.HasLock() then Some(t) else None, value);
            Shared(moved.(callers := callers, born := born), k)
  {
    var lock := if phase.HasLock() then Some(t) else None;
    if s.tasks[t].key == k {
      MovedHereShares(s, t, phase, lock, value, callers, born, k);
    } else {
      MovedElsewhereShares(s, t, phase, lock, value, callers, born, k);
    }
  }

  /** A value a caller holds and the registry has is in an entry nothing closes. */
  lemma HeldIsUsed(s: State, k: Key, v: ValueId)
    requires Inv(s) && v in s.callers && Registered(s, k, v)
    ensures k !in Unused(s)
  {
    UnusedExactly(s, k);
  }

  /** Entries come and go and tasks arrive and leave, but what key `k` has stays if its entry does. */
  lemma FramedShares(s: State, s': State, k: Key)
    requires Inv(s) && Shared(s, k)
    requires s'.callers <= s.callers && s'.born == s.born
    requires k in s.book.open && k !in Unused(s) ==> k in s'.book.open && s'.book.open[k].slot == s.book.open[k].slot
    requires k in s.book.open && k !in Unused(s) ==>
               s.book.open[k].slot in s'.slots && s'.slots[s.book.open[k].slot] == s.slots[s.book.open[k].slot]
    requires forall r {:trigger s.tasks[r]} ::
        r in s.tasks && s.tasks[r].HasLock() ==> r in s'.tasks && s'.tasks[r] == s.tasks[r]
    ensures Shared(s', k)
  {
    forall v | v in s'.callers && Born(s'.born, v, k) ensures Registered(s', k, v) {
      assert v in s.callers && Registered(s, k, v);
      HeldIsUsed(s, k, v);
    }
  }

  lemma BeginShares(s: State, t: TaskId, op: Op, key: Key, spare: SlotId, at: int, gone: set<Key>, k: Key)
    requires Inv(s) && Shared(s, k) && CanBegin(s, t, key, spare, gone)
    ensures Shared(Begun(s, t, op, key, spare, at, gone), k)
  {
    hide Shared, Unused, Alive;
    if key !in s.book.open {
      InsertedSlots(s, t, op, key, spare, at, gone);
    }
    FramedShares(s, Begun(s, t, op, key, spare, at, gone), k);
  }

  lemma CloseIdleShares(s: State, now: int, idle: nat, gone: set<Key>, k: Key)
    requires Inv(s) && Shared(s, k) && Enabled(s, CloseIdle(now, idle, gone))
    ensures Shared(Apply(s, CloseIdle(now, idle, gone)), k)
  {
    hide Shared;
    ClosedSlots(s, gone);
    FramedShares(s, Apply(s, CloseIdle(now, idle, gone)), k);
  }

  lemma LeaveShares(s: State, t: TaskId, k: Key)
    requires Inv(s) && Shared(s, k) && Enabled(s, Leave(t))
    ensures Shared(Apply(s, Leave(t)), k)
  {
    hide Unused, Shared, LocksHeld, ValuesHeld, CallersHeld, Kept, Alive;
    DepartedKeeps(s.book.open, s.slots, s.tasks, s.born, t);
    FramedShares(s, Apply(s, Leave(t)), k);
  }

  lemma EnterShares(s: State, t: TaskId, k: Key)
    requires Inv(s) && Shared(s, k) && Enabled(s, Enter(t)) && !DiscardsHeld(s, Enter(t), k)
    ensures Shared(Apply(s, Enter(t)), k)
  {
    hide Unused, Alive, ValueCount, IdleKeys, MayClose;
    var p := s.tasks[t];
    var value := s.slots[p.slot].value;
    if value.Some? {
      assert Born(s.born, value.value, p.key);
    }
    hide Kept, SlotsHeld, CallersHeld;
    if p.op.Get? && value.Some? {
      MovedShares(s, t, Unlocking(p.key, p.slot), value, s.callers + multiset{value.value}, s.born, k);
    } else if p.op.Take? && value.Some? {
      MovedShares(s, t, Draining(p.key, p.slot, value.value), None, s.callers, s.born, k);
    } else if p.op.Take? {
      MovedShares(s, t, Working(p.key, p.slot), None, s.callers, s.born, k);
    } else {
      OpeningShares(s, t, k);
    }
  }

  lemma OpeningShares(s: State, t: TaskId, k: Key)
    requires Inv(s) && Shared(s, k) && Enabled(s, Enter(t)) && !DiscardsHeld(s, Enter(t), k)
    requires s.tasks[t].op.Reopen? || (s.tasks[t].op.Get? && s.slots[s.tasks[t].slot].value.None?)
    ensures Shared(Apply(s, Enter(t)), k)
  {
    hide Unused, Alive, ValueCount, Kept, CallersHeld;
    var p := s.tasks[t];
    MovedShares(s, t, Opening(p.key, p.slot), None, s.callers, s.born, k);
  }

  lemma DrainedShares(s: State, t: TaskId, k: Key)
    requires Inv(s) && Shared(s, k) && Enabled(s, Drained(t))
    ensures Shared(Apply(s, Drained(t)), k)
  {
    var p := s.tasks[t];
    TakenValueCount(s, t);
    MovedShares(s, t, Working(p.key, p.slot), None, s.callers, s.born, k);
  }

  lemma OpenedShares(s: State, t: TaskId, v: ValueId, k: Key)
    requires Inv(s) && Shared(s, k) && Enabled(s, Opened(t, v))
    ensures Shared(Apply(s, Opened(t, v)), k)
  {
    hide Kept, Shared;
    var p := s.tasks[t];
    var phase, callers, born := Unlocking(p.key, p.slot), s.callers + multiset{v}, s.born[v := p.key];
    assert Apply(s, Opened(t, v)) == Moved(s, t, phase, Some(t), Some(v)).(callers := callers, born := born);
    OpenedIsAllowed(s, t, v, k);
    hide Apply;
    MovedShares(s, t, phase, Some(v), callers, born, k);
  }

  /** A slot that is opened into has no value yet, and what is opened is new. */
  lemma OpenedIsAllowed(s: State, t: TaskId, v: ValueId, k: Key)
    requires Inv(s) && Enabled(s, Opened(t, v))
    ensures At(s, t) && s.tasks[t].HasLock()
    ensures forall u :: u in s.callers + multiset{v} && Born(s.born[v := s.tasks[t].key], u, k) ==>
              (u in s.callers && Born(s.born, u, k)) || (s.tasks[t].key == k && u == v)
    ensures s.tasks[t].key == k ==> forall u :: !Registered(s, k, u)
  {
    hide Kept;
  }

  lemma LookShares(s: State, t: TaskId, k: Key)
    requires Inv(s) && Shared(s, k) && Enabled(s, Look(t))
    ensures Shared(Apply(s, Look(t)), k)
  {
    hide Kept;
    var s' := Apply(s, Look(t));
    MovedShares(s, t, s'.tasks[t], s.slots[s.tasks[t].slot].value, s'.callers, s.born, k);
  }

  lemma HolderShares(s: State, step: Step, k: Key)
    requires Inv(s) && Shared(s, k) && Enabled(s, step)
    requires step.Acquire? || step.OpenFailed? || step.GiveUp? || step.PutBack? || step.ThenDone? || step.Unlock?
    ensures Shared(Apply(s, step), k)
  {
    hide Kept;
    var t := step.task;
    var s' := Apply(s, step);
    MovedShares(s, t, s'.tasks[t], s'.slots[s.tasks[t].slot].value, s.callers, s.born, k);
  }

  lemma TryLockShares(s: State, t: TaskId, k: Key)
    requires Inv(s) && Shared(s, k) && Enabled(s, TryLock(t))
    ensures Shared(Apply(s, TryLock(t)), k)
  {
    var p := s.tasks[t];
    if s.slots[p.slot].lock.None? {
      MovedShares(s, t, Looking(p.key, p.slot), s.slots[p.slot].value, s.callers, s.born, k);
    } else {
      FramedShares(s, Apply(s, TryLock(t)), k);
    }
  }

  lemma PeekShares(s: State, t: TaskId, key: Key, counting: bool, at: int, k: Key)
    requires Inv(s) && Shared(s, k) && Enabled(s, Peek(t, key, counting, at))
    ensures Shared(Apply(s, Peek(t, key, counting, at)), k)
  {
    FramedShares(s, Apply(s, Peek(t, key, counting, at)), k);
  }

  lemma CallersShare(s: State, step: Step, k: Key)
    requires Inv(s) && Shared(s, k) && Enabled(s, step) && (step.TakeEvicted? || step.Share? || step.Release?)
    ensures Shared(Apply(s, step), k)
  {
    if !step.Share? {
      FramedShares(s, Apply(s, step), k);
    }
  }

  lemma StepShares(s: State, step: Step, k: Key)
    requires Inv(s) && Shared(s, k) && Enabled(s, step) && !DiscardsHeld(s, step, k)
    ensures Shared(Apply(s, step), k)
  {
    hide Inv, Shared, DiscardsHeld;
    match step
    case Begin(t, op, key, spare, at, gone) => BeginShares(s, t, op, key, spare, at, gone, k);
    case Enter(t) => EnterShares(s, t, k);
    case Opened(t, v) => OpenedShares(s, t, v, k);
    case Drained(t) => DrainedShares(s, t, k);
    case Look(t) => LookShares(s, t, k);
    case Leave(t) => LeaveShares(s, t, k);
    case Peek(t, key, counting, at) => PeekShares(s, t, key, counting, at, k);
    case TryLock(t) => TryLockShares(s, t, k);
    case CloseIdle(now, idle, gone) => CloseIdleShares(s, now, idle, gone, k);
    case TakeEvicted => CallersShare(s, step, k);
    case Share(_) => CallersShare(s, step, k);
    case Release(_) => CallersShare(s, step, k);
    case _ => HolderShares(s, step, k);
  }

  lemma {:induction false} RunShares(s: State, steps: seq<Step>, k: Key)
    requires Inv(s) && Shared(s, k) && IsRun(s, steps) && NeverDiscardsHeld(s, steps, k)
    ensures Inv(After(s, steps)) && Shared(After(s, steps), k)
    decreases |steps|
  {
    if steps != [] {
      StepKeeps(s, steps[0]);
      StepShares(s, steps[0], k);
      RunShares(Apply(s, steps[0]), steps[1..], k);
    }
  }

  /**
   Opened once: in every run that never reopens `k` over a value a caller holds, at most one value
   of `k` is live, and none is while `k` is being opened or a `then` runs on it.
   */
  lemma OpenedOnce(capacity: nat, steps: seq<Step>, k: Key)
    requires IsRun(Init(capacity), steps) && NeverDiscardsHeld(Init(capacity), steps, k)
    ensures var s := After(Init(capacity), steps);
            && |Live(s, k)| <= 1
            && forall t :: t in s.tasks && s.tasks[t].key == k && (s.tasks[t].Opening? || s.tasks[t].Working?)
                ==> Live(s, k) == {}
  {
    RunShares(Init(capacity), steps, k);
    var s := After(Init(capacity), steps);
    AtMostOneLive(s, k);
    forall t | t in s.tasks && s.tasks[t].key == k && (s.tasks[t].Opening? || s.tasks[t].Working?)
        ensures Live(s, k) == {} {
      NoneLiveInside(s, t);
    }
  }

  ghost predicate OpensCold(s: State, k: Key) {
    forall t {:trigger s.tasks[t]} :: t in s.tasks && s.tasks[t].Opening? && s.tasks[t].key == k ==> Live(s, k) == {}
  }

  ghost predicate AlwaysOpensCold(s: State, steps: seq<Step>, k: Key)
    requires IsRun(s, steps)
    decreases |steps|
  {
    OpensCold(s, k) && (steps == [] || AlwaysOpensCold(Apply(s, steps[0]), steps[1..], k))
  }

  lemma DiscardOpensWarm(s: State, step: Step, k: Key)
    requires Inv(s) && Enabled(s, step) && DiscardsHeld(s, step, k)
    ensures !OpensCold(Apply(s, step), k)
  {
    var t := step.task;
    var v := s.slots[s.tasks[t].slot].value.value;
    var s' := Apply(s, step);
    assert Born(s.born, v, k);
    assert ValueCount(s', v) >= s'.callers[v] > 0;
    assert v in Live(s', k) && s'.tasks[t].Opening? && s'.tasks[t].key == k;
  }

  /**
   When the registry keeps its promise: an open of `k` starts with no value of `k` live throughout a
   run exactly when no `reopen` of `k` in it discards a value a caller still holds. A `reopen` drops
   the registry's handle only.
   */
  lemma {:induction false} OpensColdExactly(s: State, steps: seq<Step>, k: Key)
    requires Inv(s) && Shared(s, k) && IsRun(s, steps)
    ensures AlwaysOpensCold(s, steps, k) <==> NeverDiscardsHeld(s, steps, k)
    decreases |steps|
  {
    forall t | t in s.tasks && s.tasks[t].Opening? && s.tasks[t].key == k ensures Live(s, k) == {} {
      NoneLiveInside(s, t);
    }
    if steps != [] {
      StepKeeps(s, steps[0]);
      if DiscardsHeld(s, steps[0], k) {
        DiscardOpensWarm(s, steps[0], k);
      } else {
        StepShares(s, steps[0], k);
        OpensColdExactly(Apply(s, steps[0]), steps[1..], k);
      }
    }
  }

  // --- Closing ---------------------------------------------------------------------------------

  /** The keys this step closes: to make room, or for being idle. */
  ghost function Closing(s: State, step: Step): set<Key> {
    match step
    case Begin(_, _, _, _, _, gone) => gone
    case CloseIdle(_, _, gone) => gone
    case _ => {}
  }

  /**
   Nothing is closed under a user: in every run, reopens included, no step closes an entry whose
   value a caller holds, or whose slot a task is at, and what an entry closed held is freed.
   */
  lemma ClosedUnderNobody(s: State, step: Step, k: Key)
    requires Inv(s) && Enabled(s, step) && k in Closing(s, step)
    ensures k in s.book.open
    ensures forall t :: t in s.tasks ==> s.tasks[t].key != k
    ensures var slot := s.slots[s.book.open[k].slot];
            slot.value.Some? ==> slot.value.value !in s.callers && ValueCount(Apply(s, step), slot.value.value) == 0
  {
    hide Unused, Alive, ValueCount;
    var id := s.book.open[k].slot;
    UnusedExactly(s, k);
    if s.slots[id].value.Some? {
      var v := s.slots[id].value.value;
      var s' := Apply(s, step);
      StepKeeps(s, step);
      if step.Begin? {
        assert step.key !in s.book.open;
        InsertedSlots(s, step.task, step.op, step.key, step.spare, step.at, step.gone);
      } else {
        ClosedSlots(s, Closing(s, step));
      }
      NowhereFreed(s', v, k);
    }
  }

  lemma NowhereFreed(s: State, v: ValueId, k: Key)
    requires Inv(s) && Born(s.born, v, k) && v !in s.callers
    requires forall id {:trigger s.slots[id]} :: id in s.slots && s.slots[id].key == k ==> s.slots[id].value.None?
    requires forall t {:trigger s.tasks[t]} :: t in s.tasks && s.tasks[t].key == k ==> !s.tasks[t].Takes()
    ensures ValueCount(s, v) == 0
  {
  }

  // --- Giving up -------------------------------------------------------------------------------

  ghost predicate NotBy(steps: seq<Step>, t: TaskId) {
    forall i :: 0 <= i < |steps| ==> !By(steps[i], t)
  }

  predicate By(step: Step, t: TaskId) {
    !step.CloseIdle? && !step.TakeEvicted? && !step.Share? && !step.Release? && step.task == t
  }

  lemma OthersLeaveIt(s: State, step: Step, t: TaskId)
    requires Enabled(s, step) && t in s.tasks && !By(step, t)
    ensures t in Apply(s, step).tasks && Apply(s, step).tasks[t] == s.tasks[t]
  {
    if
      || step.Acquire? || step.Enter? || step.Opened? || step.OpenFailed? || step.Drained? || step.GiveUp?
      || step.PutBack?
    {
      OtherAtSlotLeavesIt(s, step, t);
    }
  }

  lemma OtherAtSlotLeavesIt(s: State, step: Step, t: TaskId)
    requires Enabled(s, step) && t in s.tasks && !By(step, t)
    requires step.Acquire? || step.Enter? || step.Opened? || step.OpenFailed? || step.Drained? || step.GiveUp?
             || step.PutBack?
    ensures t in Apply(s, step).tasks && Apply(s, step).tasks[t] == s.tasks[t]
  {
  }

  lemma {:induction false} OthersLeaveItAll(s: State, steps: seq<Step>, t: TaskId)
    requires IsRun(s, steps) && t in s.tasks && NotBy(steps, t)
    ensures t in After(s, steps).tasks && After(s, steps).tasks[t] == s.tasks[t]
    decreases |steps|
  {
    if steps != [] {
      assert !By(steps[0], t);
      OthersLeaveIt(s, steps[0], t);
      assert forall i :: 0 <= i < |steps[1..]| ==> steps[1..][i] == steps[i + 1];
      OthersLeaveItAll(Apply(s, steps[0]), steps[1..], t);
    }
  }

  /**
   A `take_then` that gives up puts back the value it took, whatever the others did meanwhile: while it
   waited, and between finding its patience over, when a caller still held the value, and putting it back.
   */
  lemma {:induction false} GivenUpRestores(s: State, t: TaskId, waiting: seq<Step>, returning: seq<Step>)
    requires Inv(s) && Enabled(s, Enter(t)) && s.tasks[t].op.Take? && s.slots[s.tasks[t].slot].value.Some?
    requires IsRun(Apply(s, Enter(t)), waiting) && NotBy(waiting, t)
    requires Enabled(After(Apply(s, Enter(t)), waiting), GiveUp(t))
    requires IsRun(Apply(After(Apply(s, Enter(t)), waiting), GiveUp(t)), returning) && NotBy(returning, t)
    ensures var key, id := s.tasks[t].key, s.tasks[t].slot;
            var gaveUp := Apply(After(Apply(s, Enter(t)), waiting), GiveUp(t));
            var s' := After(gaveUp, returning);
            && s.slots[id].value.value in gaveUp.callers
            && Enabled(s', PutBack(t))
            && key in s'.book.open && s'.book.open[key].slot == id
            && id in Apply(s', PutBack(t)).slots && Apply(s', PutBack(t)).slots[id].value == s.slots[id].value
  {
    hide IsRun, After;
    var inside := Apply(s, Enter(t));
    StepKeeps(s, Enter(t));
    OthersLeaveItAll(inside, waiting, t);
    RunKeeps(inside, waiting);
    var waited := After(inside, waiting);
    HeldAtGiveUp(waited, t);
    StepKeeps(waited, GiveUp(t));
    OthersLeaveItAll(Apply(waited, GiveUp(t)), returning, t);
    RunKeeps(Apply(waited, GiveUp(t)), returning);
    PutBackRestores(After(Apply(waited, GiveUp(t)), returning), t);
  }

  lemma HeldAtGiveUp(s: State, t: TaskId)
    requires Inv(s) && Enabled(s, GiveUp(t))
    ensures var p := s.tasks[t];
            Apply(s, GiveUp(t)).tasks == s.tasks[t := Returning(p.key, p.slot, p.taken)]
                && p.taken in Apply(s, GiveUp(t)).callers
  {
    TakenValueCount(s, t);
  }

  lemma PutBackRestores(s: State, t: TaskId)
    requires Inv(s) && t in s.tasks && s.tasks[t].Returning?
    ensures var p := s.tasks[t];
            && Enabled(s, PutBack(t))
            && p.key in s.book.open && s.book.open[p.key].slot == p.slot
            && p.slot in Apply(s, PutBack(t)).slots && Apply(s, PutBack(t)).slots[p.slot].value == Some(p.taken)
  {
  }

  // --- Waiting ---------------------------------------------------------------------------------

  lemma HolderCanMove(s: State, t: TaskId) returns (step: Step)
    requires Inv(s) && t in s.tasks && s.tasks[t].HasLock()
    ensures Enabled(s, step) && By(step, t)
  {
    match s.tasks[t]
    case Locked(_, _, _) => step := Enter(t);
    case Opening(_, _) => step := OpenFailed(t);
    case Draining(_, _, v) =>
      TakenValueCount(s, t);
      step := if ValueCount(s, v) == 1 then Drained(t) else GiveUp(t);
    case Returning(_, _, _) => step := PutBack(t);
    case Working(_, _) => step := ThenDone(t);
    case Looking(_, _) => step := Look(t);
    case Unlocking(_, _) => step := Unlock(t);
  }

  /**
   Nobody waits in a circle, and nobody waits for another key: a task in the registry can take a
   step, or waits for the lock of its own key's slot, held by one task that can.
   */
  lemma OneWaitsForOne(s: State, t: TaskId) returns (mover: TaskId, step: Step)
    requires Inv(s) && t in s.tasks
    ensures Enabled(s, step) && By(step, mover)
    ensures mover in s.tasks && s.tasks[mover].key == s.tasks[t].key
    ensures mover != t ==> s.tasks[t].Waiting? && s.tasks[mover].HasLock()
  {
    var slot := s.slots[s.tasks[t].slot];
    mover := t;
    if s.tasks[t].HasLock() {
      step := HolderCanMove(s, t);
    } else if s.tasks[t].Waiting? && slot.lock.Some? {
      mover := slot.lock.value;
      assert Inside(s.tasks, mover, s.tasks[t].slot);
      assert s.tasks[mover].key == slot.key == s.tasks[t].key;
      step := HolderCanMove(s, mover);
    } else {
      step := if s.tasks[t].Waiting? then Acquire(t) else if s.tasks[t].Peeking? then TryLock(t) else Leave(t);
    }
  }

  /**
   Whatever is locked or busy, the map's half of an operation can always be taken: room is made as `RoomMade` says.
   */
  lemma {:induction false} StartsAtOnce(s: State, t: TaskId, op: Op, key: Key, at: int)
      returns (spare: SlotId, gone: set<Key>)
    requires Inv(s) && t !in s.tasks
    ensures Enabled(s, Begin(t, op, key, spare, at, gone))
    ensures key !in s.book.open ==> RoomMade(s.book.open, Unused(s), s.capacity, gone)
  {
    hide Unused, SlotsHeld, ValuesHeld, CallersHeld, LocksHeld, Alive;
    spare := Unallocated(s.slots.Keys);
    gone := {};
    if key !in s.book.open {
      gone := RoomCanBeMade(s.book.open, s.book.uses, Unused(s), s.capacity);
    } else {
      EntryHasSlot(s, key);
    }
  }

  lemma EntryHasSlot(s: State, key: Key)
    requires Inv(s) && key in s.book.open
    ensures s.book.open[key].slot in s.slots
  {
  }

  /** Every operation that begins takes its slot as the map's half says, by some passes over what is unused. */
  lemma BeginTakesSlot(s: State, t: TaskId, op: Op, key: Key, spare: SlotId, at: int, gone: set<Key>)
      returns (seen: seq<set<Key>>)
    requires CanBegin(s, t, key, spare, gone)
    ensures AllWithin(seen, Unused(s))
    ensures var s' := Begun(s, t, op, key, spare, at, gone);
            t in s'.tasks && SlotTaken(s.book, seen, s.capacity, key, spare, at, gone, s'.book, s'.tasks[t].slot)
  {
    hide Unused, Alive, ClosedInPasses;
    seen := [];
    if key !in s.book.open {
      seen := SomePassesClose(s.book.open, Unused(s), s.capacity, gone);
    }
  }

  /**
   A cold key is opened whatever the others are doing: the task that asks for it takes the lock, finds the
   slot empty and opens, one step after the other, waiting for nobody.
   */
  lemma ColdKeyOpensAlone(s: State, t: TaskId, op: Op, key: Key, spare: SlotId, at: int, gone: set<Key>, v: ValueId)
    requires Inv(s) && CanBegin(s, t, key, spare, gone) && key !in s.book.open && !op.Take? && v !in s.born
    ensures var steps := [Begin(t, op, key, spare, at, gone)] + ([Acquire(t)] + ([Enter(t)] + ([Opened(t, v)] + [])));
            IsRun(s, steps) && v in After(s, steps).callers
                && Placed(After(s, steps), t, Unlocking(key, spare), Some(v))
  {
    hide Enabled, Apply, IsRun, After;
    ColdBegins(s, t, op, key, spare, at, gone);
    var begun := Apply(s, Begin(t, op, key, spare, at, gone));
    AloneAcquires(begun, t, op, key, spare);
    var acquired := Apply(begun, Acquire(t));
    AloneEnters(acquired, t, op, key, spare);
    var entered := Apply(acquired, Enter(t));
    AloneOpens(entered, t, key, spare, v);
    NoSteps(Apply(entered, Opened(t, v)));
    OneStep(entered, Opened(t, v), []);
    OneStep(acquired, Enter(t), [Opened(t, v)] + []);
    OneStep(begun, Acquire(t), [Enter(t)] + ([Opened(t, v)] + []));
    OneStep(s, Begin(t, op, key, spare, at, gone), [Acquire(t)] + ([Enter(t)] + ([Opened(t, v)] + [])));
  }

  /** `t` is at `phase`, and its slot holds `value` under its lock, if it has it. */
  ghost predicate Placed(s: State, t: TaskId, phase: Phase, value: Option<ValueId>) {
    && t in s.tasks && s.tasks[t] == phase
    && phase.slot in s.slots && s.slots[phase.slot] == Slot(phase.key, if phase.HasLock() then Some(t) else None, value)
  }

  lemma ColdBegins(s: State, t: TaskId, op: Op, key: Key, spare: SlotId, at: int, gone: set<Key>)
    requires Inv(s) && CanBegin(s, t, key, spare, gone) && key !in s.book.open
    ensures Enabled(s, Begin(t, op, key, spare, at, gone))
    ensures var s' := Apply(s, Begin(t, op, key, spare, at, gone));
            Placed(s', t, Waiting(op, key, spare), None) && s'.born == s.born
  {
    hide Inv, Unused, Alive;
    InsertedSlots(s, t, op, key, spare, at, gone);
  }

  lemma AloneAcquires(s: State, t: TaskId, op: Op, key: Key, id: SlotId)
    requires Placed(s, t, Waiting(op, key, id), None)
    ensures Enabled(s, Acquire(t))
    ensures Placed(Apply(s, Acquire(t)), t, Locked(op, key, id), None) && Apply(s, Acquire(t)).born == s.born
  {
  }

  lemma AloneEnters(s: State, t: TaskId, op: Op, key: Key, id: SlotId)
    requires Placed(s, t, Locked(op, key, id), None) && !op.Take?
    ensures Enabled(s, Enter(t))
    ensures Placed(Apply(s, Enter(t)), t, Opening(key, id), None) && Apply(s, Enter(t)).born == s.born
  {
  }

  lemma AloneOpens(s: State, t: TaskId, key: Key, id: SlotId, v: ValueId)
    requires Placed(s, t, Opening(key, id), None) && v !in s.born
    ensures Enabled(s, Opened(t, v))
    ensures Placed(Apply(s, Opened(t, v)), t, Unlocking(key, id), Some(v)) && v in Apply(s, Opened(t, v)).callers
  {
  }

  lemma NoSteps(s: State)
    ensures IsRun(s, []) && After(s, []) == s
  {
  }

  lemma OneStep(s: State, step: Step, rest: seq<Step>)
    requires Enabled(s, step) && IsRun(Apply(s, step), rest)
    ensures IsRun(s, [step] + rest) && After(s, [step] + rest) == After(Apply(s, step), rest)
  {
    hide Enabled, Apply;
    assert ([step] + rest)[1..] == rest;
  }

  lemma Unallocated(slots: set<SlotId>) returns (spare: SlotId)
    ensures spare !in slots
  {
    spare := 0;
    var below: set<SlotId> := {};
    while spare in slots
      invariant below <= slots && |below| == spare
      invariant forall id :: id in below ==> id < spare
      decreases |slots| - spare
    {
      below := below + {spare};
      spare := spare + 1;
      SubsetSize(below, slots);
    }
  }

  // --- What a reopen gives up ------------------------------------------------------------------

  ghost predicate Reached(capacity: nat, s: State) {
    exists steps :: IsRun(Init(capacity), steps) && After(Init(capacity), steps) == s
  }

  lemma ReachedNext(capacity: nat, s: State, step: Step) returns (s': State)
    requires Reached(capacity, s) && Enabled(s, step)
    ensures s' == Apply(s, step) && Reached(capacity, s')
  {
    hide Enabled, Apply;
    s' := Apply(s, step);
    var steps :| IsRun(Init(capacity), steps) && After(Init(capacity), steps) == s;
    RunsJoin(Init(capacity), steps, step);
  }

  lemma {:induction false} RunsJoin(s: State, steps: seq<Step>, last: Step)
    requires IsRun(s, steps) && Enabled(After(s, steps), last)
    ensures IsRun(s, steps + [last]) && After(s, steps + [last]) == Apply(After(s, steps), last)
    decreases |steps|
  {
    hide Enabled, Apply;
    if steps == [] {
      assert (steps + [last])[1..] == [];
    } else {
      assert (steps + [last])[0] == steps[0] && (steps + [last])[1..] == steps[1..] + [last];
      RunsJoin(Apply(s, steps[0]), steps[1..], last);
    }
  }

  /** Task `t` alone in the registry at `phase` of slot 0, which is `slot`; no task when `phase` is none. */
  ghost predicate Standing(s: State, k: Key, at: Option<(TaskId, Phase)>, slot: Slot, callers: multiset<ValueId>,
      born: map<ValueId, Key>) {
    && s.tasks == (if at.None? then map[] else map[at.value.0 := at.value.1])
    && k in s.book.open && s.book.open[k].slot == 0
    && s.slots == map[0 := slot] && s.callers == callers && s.born == born
  }

  lemma StandingBegins(s: State, t: TaskId, op: Op, k: Key, value: Option<ValueId>)
    requires if k !in s.book.open then s.book.open == map[] && s.tasks == map[] && s.slots == map[] && value.None?
             else Standing(s, k, None, Slot(k, None, value), s.callers, s.born)
    ensures Enabled(s, Begin(t, op, k, 0, 0, {}))
    ensures Standing(Apply(s, Begin(t, op, k, 0, 0, {})), k, Some((t, Waiting(op, k, 0))), Slot(k, None, value),
        s.callers, s.born)
  {
    var s' := Begun(s, t, op, k, 0, 0, {});
    assert s'.tasks == map[t := Waiting(op, k, 0)];
    assert 0 in Referenced(s'.book.open, s'.tasks);
    assert s'.slots == map[0 := Slot(k, None, value)];
  }

  lemma StandingAcquires(s: State, t: TaskId, op: Op, k: Key, value: Option<ValueId>)
    requires Standing(s, k, Some((t, Waiting(op, k, 0))), Slot(k, None, value), s.callers, s.born)
    ensures Enabled(s, Acquire(t))
    ensures Standing(Apply(s, Acquire(t)), k, Some((t, Locked(op, k, 0))), Slot(k, Some(t), value), s.callers, s.born)
  {
  }

  lemma StandingOpens(s: State, t: TaskId, op: Op, k: Key, value: Option<ValueId>)
    requires Standing(s, k, Some((t, Locked(op, k, 0))), Slot(k, Some(t), value), s.callers, s.born)
    requires op.Reopen? || (op.Get? && value.None?)
    ensures Enabled(s, Enter(t))
    ensures Standing(Apply(s, Enter(t)), k, Some((t, Opening(k, 0))), Slot(k, Some(t), None), s.callers, s.born)
  {
  }

  lemma StandingStores(s: State, t: TaskId, k: Key, v: ValueId)
    requires Standing(s, k, Some((t, Opening(k, 0))), Slot(k, Some(t), None), s.callers, s.born) && v !in s.born
    ensures Enabled(s, Opened(t, v))
    ensures Standing(Apply(s, Opened(t, v)), k, Some((t, Unlocking(k, 0))), Slot(k, Some(t), Some(v)),
                     s.callers + multiset{v}, s.born[v := k])
  {
  }

  lemma StandingUnlocks(s: State, t: TaskId, k: Key, value: Option<ValueId>)
    requires Standing(s, k, Some((t, Unlocking(k, 0))), Slot(k, Some(t), value), s.callers, s.born)
    ensures Enabled(s, Unlock(t))
    ensures Standing(Apply(s, Unlock(t)), k, Some((t, Leaving(k, 0))), Slot(k, None, value), s.callers, s.born)
  {
  }

  lemma StandingLeaves(s: State, t: TaskId, k: Key, value: Option<ValueId>)
    requires Standing(s, k, Some((t, Leaving(k, 0))), Slot(k, None, value), s.callers, s.born)
    ensures Enabled(s, Leave(t))
    ensures Standing(Apply(s, Leave(t)), k, None, Slot(k, None, value), s.callers, s.born)
  {
  }

  /** From the start, or from a registry holding `k` alone, `t` opens or reopens `k` and makes `v`. */
  lemma RoundOpens(capacity: nat, s: State, t: TaskId, op: Op, k: Key, v: ValueId, value: Option<ValueId>)
      returns (s': State)
    requires Reached(capacity, s) && v !in s.born
    requires op == (if value.Some? then Reopen else Get)
    requires if value.None? then s == Init(capacity) else Standing(s, k, None, Slot(k, None, value), s.callers, s.born)
    ensures Reached(capacity, s')
    ensures Standing(s', k, None, Slot(k, None, Some(v)), s.callers + multiset{v}, s.born[v := k])
  {
    hide Inv, Reached, Enabled, Apply;
    StandingBegins(s, t, op, k, value);
    s' := ReachedNext(capacity, s, Begin(t, op, k, 0, 0, {}));
    StandingAcquires(s', t, op, k, value);
    s' := ReachedNext(capacity, s', Acquire(t));
    StandingOpens(s', t, op, k, value);
    s' := ReachedNext(capacity, s', Enter(t));
    StandingStores(s', t, k, v);
    s' := ReachedNext(capacity, s', Opened(t, v));
    StandingUnlocks(s', t, k, Some(v));
    s' := ReachedNext(capacity, s', Unlock(t));
    StandingLeaves(s', t, k, Some(v));
    s' := ReachedNext(capacity, s', Leave(t));
  }

  /** The promise does fail after a reopen under a caller: two values of one key, both held. */
  lemma ReopenLeavesTwoLive(capacity: nat, k: Key) returns (s: State)
    ensures Reached(capacity, s) && Live(s, k) == {1, 2}
  {
    hide Inv;
    assert IsRun(Init(capacity), []) && After(Init(capacity), []) == Init(capacity);
    var first := RoundOpens(capacity, Init(capacity), 0, Get, k, 1, None);
    s := RoundOpens(capacity, first, 0, Reopen, k, 2, Some(1));
    assert s.callers[1] == 1 && s.callers[2] == 1;
    assert s.born == map[1 := k, 2 := k];
  }
}
