/**
 Deleting a project (`Session::purge`) beside everything else the server does with it.

 The world is the registry of `RegistryProtocol` together with what survives a crash: the project
 rows and the index directories. A purge is a `take_then` whose `then` deletes the rows in a
 transaction, removes the directory, and commits; any of its awaits may fail, and the process may
 die between any two steps. A transaction that is not committed changes no row.

 `Bound` is what every act keeps, rebuilds under a caller included. What only a careful use of a
 project keeps is asked of that project's own key.
 */
module Purge {
  import opened Wrappers
  import opened RegistryMap
  import opened RegistryProtocol
  import opened RegistrySafety

  type ProjectId = nat

  /** How far the `then` of a purge has come; a task with none has not begun its transaction. */
  datatype Stage = Deleted(found: Option<ProjectId>) | Removed(project: ProjectId) | Finished

  /**
   `engines` is the project whose directory each engine writes to, `purged` every project purged, and
   `named` the key of every project there ever was.
   */
  datatype World = World(registry: State, rows: map<Key, ProjectId>, dirs: set<ProjectId>, next: ProjectId,
                         stages: map<TaskId, Stage>, engines: map<ValueId, ProjectId>, purged: set<ProjectId>,
                         named: map<ProjectId, Key>)

  datatype Act =
    | Registry(step: Step)
    | EnsureProject(key: Key)
    | OpeningWrites(task: TaskId)
    | EngineWrites(value: ValueId)
    | DeleteRows(task: TaskId)
    | RemoveDir(task: TaskId)
    | Commit(task: TaskId)
    | Crash

  ghost function Start(capacity: nat): World {
    World(Init(capacity), map[], {}, 0, map[], map[], {}, map[])
  }

  ghost predicate Doing(w: World, t: TaskId) {
    t in w.registry.tasks && w.registry.tasks[t].Working?
  }

  ghost predicate Can(w: World, act: Act) {
    match act
    case Registry(step) => Enabled(w.registry, step) && (step.Opened? ==> w.registry.tasks[step.task].key in w.rows)
    case EnsureProject(_) => true
    case OpeningWrites(t) =>
      t in w.registry.tasks && w.registry.tasks[t].Opening? && w.registry.tasks[t].key in w.rows
    case EngineWrites(v) => v in w.registry.callers && v in w.engines
    case DeleteRows(t) => Doing(w, t) && t !in w.stages
    case RemoveDir(t) => Doing(w, t) && t in w.stages && w.stages[t].Deleted? && w.stages[t].found.Some?
    case Commit(t) =>
      Doing(w, t) && t in w.stages && (w.stages[t].Removed? || (w.stages[t].Deleted? && w.stages[t].found.None?))
    case Crash => true
  }

  ghost function Do(w: World, act: Act): World
    requires Can(w, act)
  {
    match act
    case Registry(step) =>
      var registry := Apply(w.registry, step);
      if step.Opened? then
        var project := w.rows[w.registry.tasks[step.task].key];
        w.(registry := registry, engines := w.engines[step.value := project], dirs := w.dirs + {project})
      else if step.ThenDone? then
        w.(registry := registry, stages := w.stages - {step.task})
      else
        w.(registry := registry)
    case EnsureProject(key) =>
      if key in w.rows then w
      else w.(rows := w.rows[key := w.next], next := w.next + 1, named := w.named[w.next := key])
    case OpeningWrites(t) => w.(dirs := w.dirs + {w.rows[w.registry.tasks[t].key]})
    case EngineWrites(v) => w.(dirs := w.dirs + {w.engines[v]})
    case DeleteRows(t) =>
      var key := w.registry.tasks[t].key;
      w.(stages := w.stages[t := Deleted(if key in w.rows then Some(w.rows[key]) else None)])
    case RemoveDir(t) =>
      var project := w.stages[t].found.value;
      w.(dirs := w.dirs - {project}, stages := w.stages[t := Removed(project)])
    case Commit(t) =>
      if w.stages[t].Removed? then
        w.(rows := w.rows - {w.registry.tasks[t].key}, purged := w.purged + {w.stages[t].project},
           stages := w.stages[t := Finished])
      else
        w.(stages := w.stages[t := Finished])
    case Crash => w.(registry := Init(w.registry.capacity), stages := map[], engines := map[])
  }

  ghost predicate IsHistory(w: World, acts: seq<Act>)
    decreases |acts|
  {
    acts == [] || (Can(w, acts[0]) && IsHistory(Do(w, acts[0]), acts[1..]))
  }

  ghost function Later(w: World, acts: seq<Act>): World
    requires IsHistory(w, acts)
    decreases |acts|
  {
    if acts == [] then w else Later(Do(w, acts[0]), acts[1..])
  }

  // --- The invariant ---------------------------------------------------------------------------

  /** A row is its key's own project, never one that was purged, and no project's number is used again. */
  ghost predicate RowsNamed(rows: map<Key, ProjectId>, named: map<ProjectId, Key>, next: ProjectId,
      purged: set<ProjectId>) {
    && (forall k {:trigger rows[k]} :: k in rows ==> rows[k] in named && named[rows[k]] == k && rows[k] !in purged)
    && (forall p {:trigger p in named} :: p in named ==> p < next)
    && purged <= named.Keys
  }

  /** What `t`'s transaction deleted, or removed the directory of, is the row of the key whose slot `t` holds. */
  ghost predicate StagesBound(tasks: map<TaskId, Phase>, rows: map<Key, ProjectId>, stages: map<TaskId, Stage>) {
    forall t {:trigger stages[t]} :: t in stages ==>
      && t in tasks && tasks[t].Working?
      && (stages[t].Deleted? && stages[t].found.Some? ==> RowOf(rows, tasks[t].key, stages[t].found.value))
      && (stages[t].Removed? ==> RowOf(rows, tasks[t].key, stages[t].project))
  }

  ghost predicate RowOf(rows: map<Key, ProjectId>, k: Key, p: ProjectId) {
    k in rows && rows[k] == p
  }

  ghost predicate EngineOf(rows: map<Key, ProjectId>, engines: map<ValueId, ProjectId>, k: Key, v: ValueId) {
    v in engines && k in rows && engines[v] == rows[k]
  }

  /** Every engine the registry has writes to its own project's directory. */
  ghost predicate EnginesHeld(s: State, rows: map<Key, ProjectId>, engines: map<ValueId, ProjectId>) {
    forall k, v :: Registered(s, k, v) ==> EngineOf(rows, engines, k, v)
  }

  /** Every engine there is was opened under the key of the project it writes to. */
  ghost predicate EnginesNamed(born: map<ValueId, Key>, named: map<ProjectId, Key>, engines: map<ValueId, ProjectId>) {
    forall v {:trigger engines[v]} :: v in engines ==> v in born && engines[v] in named && named[engines[v]] == born[v]
  }

  ghost predicate Bound(w: World) {
    && Inv(w.registry)
    && RowsNamed(w.rows, w.named, w.next, w.purged)
    && StagesBound(w.registry.tasks, w.rows, w.stages)
    && EnginesHeld(w.registry, w.rows, w.engines)
    && EnginesNamed(w.registry.born, w.named, w.engines)
  }

  // --- Where a registered value comes from -----------------------------------------------------

  lemma MovedRegisters(s: State, t: TaskId, phase: Phase, lock: Option<TaskId>, value: Option<ValueId>,
                       callers: multiset<ValueId>, born: map<ValueId, Key>, k: Key, v: ValueId)
    requires Inv(s) && At(s, t) && (lock.None? || lock.value == t)
    requires Registered(Moved(s, t, phase, lock, value).(callers := callers, born := born), k, v)
    ensures Registered(s, k, v) || (s.tasks[t].key == k && (value == Some(v) || (phase.Takes() && phase.taken == v)))
  {
  }

  lemma EnterRegisters(s: State, t: TaskId, k: Key, v: ValueId)
    requires Inv(s) && Enabled(s, Enter(t)) && Registered(Apply(s, Enter(t)), k, v)
    ensures Registered(s, k, v)
  {
    var s' := Apply(s, Enter(t));
    var p := s.tasks[t];
    var value := s.slots[p.slot].value;
    hide Kept, ValuesHeld, CallersHeld;
    if p.op.Get? && value.Some? {
      MovedRegisters(s, t, Unlocking(p.key, p.slot), Some(t), value, s.callers + multiset{value.value}, s.born, k, v);
    } else if p.op.Take? && value.Some? {
      MovedRegisters(s, t, Draining(p.key, p.slot, value.value), Some(t), None, s.callers, s.born, k, v);
    } else if p.op.Take? {
      MovedRegisters(s, t, Working(p.key, p.slot), Some(t), None, s.callers, s.born, k, v);
    } else {
      MovedRegisters(s, t, Opening(p.key, p.slot), Some(t), None, s.callers, s.born, k, v);
    }
  }

  lemma HolderRegisters(s: State, step: Step, k: Key, v: ValueId)
    requires Inv(s) && Enabled(s, step) && Registered(Apply(s, step), k, v)
    requires step.Acquire? || step.OpenFailed? || step.Drained? || step.GiveUp? || step.PutBack? || step.ThenDone?
        || step.Unlock?
    ensures Registered(s, k, v)
  {
    var t := step.task;
    var s' := Apply(s, step);
    hide Kept, ValuesHeld, CallersHeld;
    MovedRegisters(s, t, s'.tasks[t], s'.slots[s.tasks[t].slot].lock, s'.slots[s.tasks[t].slot].value, s.callers,
        s.born, k, v);
  }

  lemma BeginRegisters(s: State, t: TaskId, op: Op, key: Key, spare: SlotId, at: int, gone: set<Key>, k: Key,
      v: ValueId)
    requires Inv(s) && CanBegin(s, t, key, spare, gone) && Registered(Begun(s, t, op, key, spare, at, gone), k, v)
    ensures Registered(s, k, v)
  {
    hide Kept, ValuesHeld, CallersHeld;
    if key !in s.book.open {
      InsertedSlots(s, t, op, key, spare, at, gone);
    }
  }

  lemma CloseIdleRegisters(s: State, now: int, idle: nat, gone: set<Key>, k: Key, v: ValueId)
    requires Inv(s) && Enabled(s, CloseIdle(now, idle, gone)) && Registered(Apply(s, CloseIdle(now, idle, gone)), k, v)
    ensures Registered(s, k, v)
  {
    ClosedSlots(s, gone);
  }

  lemma LeaveRegisters(s: State, t: TaskId, k: Key, v: ValueId)
    requires Inv(s) && Enabled(s, Leave(t)) && Registered(Apply(s, Leave(t)), k, v)
    ensures Registered(s, k, v)
  {
  }

  lemma PeekRegisters(s: State, t: TaskId, key: Key, counting: bool, at: int, k: Key, v: ValueId)
    requires Inv(s) && Enabled(s, Peek(t, key, counting, at)) && Registered(Apply(s, Peek(t, key, counting, at)), k, v)
    ensures Registered(s, k, v)
  {
  }

  lemma LookRegisters(s: State, t: TaskId, k: Key, v: ValueId)
    requires Inv(s) && Enabled(s, Look(t)) && Registered(Apply(s, Look(t)), k, v)
    ensures Registered(s, k, v)
  {
  }

  lemma TryLockRegisters(s: State, t: TaskId, k: Key, v: ValueId)
    requires Inv(s) && Enabled(s, TryLock(t)) && Registered(Apply(s, TryLock(t)), k, v)
    ensures Registered(s, k, v)
  {
    var p := s.tasks[t];
    if s.slots[p.slot].lock.None? {
      MovedRegisters(s, t, Looking(p.key, p.slot), Some(t), s.slots[p.slot].value, s.callers, s.born, k, v);
    }
  }

  lemma OpenedRegisters(s: State, t: TaskId, made: ValueId, k: Key, v: ValueId)
    requires Inv(s) && Enabled(s, Opened(t, made)) && Registered(Apply(s, Opened(t, made)), k, v)
    ensures Registered(s, k, v) || (made == v && s.tasks[t].key == k)
  {
    var p := s.tasks[t];
    MovedRegisters(s, t, Unlocking(p.key, p.slot), Some(t), Some(made), s.callers + multiset{made},
        s.born[made := p.key], k, v);
  }

  /** A value the registry has was there before, unless this step opened it. */
  lemma RegisteredBefore(s: State, step: Step, k: Key, v: ValueId)
    requires Inv(s) && Enabled(s, step) && Registered(Apply(s, step), k, v)
    ensures Registered(s, k, v) || (step.Opened? && step.value == v && s.tasks[step.task].key == k)
  {
    hide Inv;
    match step
    case Begin(t, op, key, spare, at, gone) => BeginRegisters(s, t, op, key, spare, at, gone, k, v);
    case Enter(t) => EnterRegisters(s, t, k, v);
    case Opened(t, made) => OpenedRegisters(s, t, made, k, v);
    case Look(t) => LookRegisters(s, t, k, v);
    case TryLock(t) => TryLockRegisters(s, t, k, v);
    case CloseIdle(now, idle, gone) => CloseIdleRegisters(s, now, idle, gone, k, v);
    case Leave(t) => LeaveRegisters(s, t, k, v);
    case Peek(t, key, counting, at) => PeekRegisters(s, t, key, counting, at, k, v);
    case TakeEvicted =>
    case Share(_) =>
    case Release(_) =>
    case _ => HolderRegisters(s, step, k, v);
  }

  // --- Every act keeps the world bound ---------------------------------------------------------

  /** Nothing is registered at a key whose slot is being opened into or worked on. */
  lemma NoneRegisteredInside(s: State, t: TaskId, v: ValueId)
    requires Inv(s) && t in s.tasks && (s.tasks[t].Working? || s.tasks[t].Opening?)
    ensures !Registered(s, s.tasks[t].key, v)
  {
  }

  lemma RegisteredIsBorn(s: State, k: Key, v: ValueId)
    requires Inv(s) && Registered(s, k, v)
    ensures Born(s.born, v, k)
  {
  }

  lemma BornStays(s: State, step: Step, v: ValueId)
    requires Enabled(s, step) && v in s.born
    ensures Born(Apply(s, step).born, v, s.born[v])
  {
    hide ValueCount, Unused, Alive;
  }

  lemma RegistryEngines(w: World, step: Step)
    requires Bound(w) && Can(w, Registry(step))
    ensures EnginesHeld(Do(w, Registry(step)).registry, w.rows, Do(w, Registry(step)).engines)
  {
    hide Inv, Enabled, Apply, Registered, StagesBound, RowsNamed;
    var w' := Do(w, Registry(step));
    forall k, v | Registered(w'.registry, k, v) ensures EngineOf(w.rows, w'.engines, k, v) {
      RegisteredBefore(w.registry, step, k, v);
      if Registered(w.registry, k, v) {
        assert EngineOf(w.rows, w.engines, k, v);
        RegisteredIsBorn(w.registry, k, v);
        OpenedIsNew(w.registry, step, v);
      }
    }
  }

  lemma OpenedIsNew(s: State, step: Step, v: ValueId)
    requires Enabled(s, step) && v in s.born
    ensures step.Opened? ==> step.value != v
  {
  }

  lemma RegistryNames(w: World, step: Step)
    requires Bound(w) && Can(w, Registry(step))
    ensures EnginesNamed(Do(w, Registry(step)).registry.born, w.named, Do(w, Registry(step)).engines)
  {
    hide Inv, StagesBound, EnginesHeld;
    var w' := Do(w, Registry(step));
    forall v | v in w'.engines ensures v in w'.registry.born && w'.engines[v] in w.named
        && w.named[w'.engines[v]] == w'.registry.born[v] {
      if v in w.registry.born {
        hide Enabled, Apply;
        BornStays(w.registry, step, v);
        OpenedIsNew(w.registry, step, v);
      } else {
        assert step.Opened? && step.value == v;
      }
    }
  }

  lemma RegistryStages(w: World, step: Step)
    requires Can(w, Registry(step)) && StagesBound(w.registry.tasks, w.rows, w.stages)
    ensures StagesBound(Do(w, Registry(step)).registry.tasks, w.rows, Do(w, Registry(step)).stages)
  {
    var w' := Do(w, Registry(step));
    forall t | t in w'.stages ensures t in w'.registry.tasks && w'.registry.tasks[t] == w.registry.tasks[t] {
      StaysInside(w, step, t);
    }
    hide Enabled, Apply;
  }

  lemma StaysInside(w: World, step: Step, t: TaskId)
    requires Can(w, Registry(step)) && StagesBound(w.registry.tasks, w.rows, w.stages)
    requires t in w.stages && t in Do(w, Registry(step)).stages
    ensures t in Apply(w.registry, step).tasks && Apply(w.registry, step).tasks[t] == w.registry.tasks[t]
  {
    assert w.registry.tasks[t].Working?;
    if By(step, t) {
      OnlyThenDone(w.registry, step, t);
    } else {
      OthersLeaveIt(w.registry, step, t);
    }
  }

  /** All a task whose `then` is running can do is end it. */
  lemma OnlyThenDone(s: State, step: Step, t: TaskId)
    requires Enabled(s, step) && t in s.tasks && s.tasks[t].Working? && By(step, t)
    ensures step == ThenDone(t)
  {
    hide ValueCount, Unused;
  }

  lemma RegistryKeeps(w: World, step: Step)
    requires Bound(w) && Can(w, Registry(step))
    ensures Bound(Do(w, Registry(step)))
  {
    hide Inv, Enabled, Apply, EnginesHeld, EnginesNamed, StagesBound, RowsNamed;
    StepKeeps(w.registry, step);
    RegistryEngines(w, step);
    RegistryNames(w, step);
    RegistryStages(w, step);
  }

  lemma CommitKeeps(w: World, t: TaskId)
    requires Bound(w) && Can(w, Commit(t))
    ensures Bound(Do(w, Commit(t)))
  {
    hide Inv, EnginesHeld, EnginesNamed, StagesBound, RowsNamed;
    if w.stages[t].Removed? {
      CommitEngines(w, t);
      CommitStages(w, t);
      CommitRows(w, t);
    } else {
      FinishedStages(w.registry.tasks, w.rows, w.stages, t);
    }
  }

  lemma FinishedStages(tasks: map<TaskId, Phase>, rows: map<Key, ProjectId>, stages: map<TaskId, Stage>, t: TaskId)
    requires StagesBound(tasks, rows, stages) && t in stages
    ensures StagesBound(tasks, rows, stages[t := Finished])
  {
  }

  lemma CommitRows(w: World, t: TaskId)
    requires RowsNamed(w.rows, w.named, w.next, w.purged) && StagesBound(w.registry.tasks, w.rows, w.stages)
    requires Can(w, Commit(t)) && w.stages[t].Removed?
    ensures RowsNamed(Do(w, Commit(t)).rows, w.named, w.next, Do(w, Commit(t)).purged)
  {
    var k, p := w.registry.tasks[t].key, w.stages[t].project;
    assert RowOf(w.rows, k, p);
    forall j | j in w.rows && j != k ensures w.rows[j] != p {
      assert w.named[w.rows[j]] == j && w.named[w.rows[k]] == k;
    }
  }

  lemma CommitStages(w: World, t: TaskId)
    requires Bound(w) && Can(w, Commit(t)) && w.stages[t].Removed?
    ensures StagesBound(w.registry.tasks, Do(w, Commit(t)).rows, Do(w, Commit(t)).stages)
  {
    hide Inv, EnginesHeld, EnginesNamed, RowsNamed, StagesBound;
    PurgesApart(w.registry, w.rows, w.stages, t);
    OtherStages(w.registry.tasks, w.rows, w.stages, t);
  }

  lemma PurgesApart(s: State, rows: map<Key, ProjectId>, stages: map<TaskId, Stage>, t: TaskId)
    requires Inv(s) && StagesBound(s.tasks, rows, stages) && t in s.tasks && s.tasks[t].Working?
    ensures forall r {:trigger stages[r]} :: r in stages && r != t ==> r in s.tasks && s.tasks[r].key != s.tasks[t].key
  {
    forall r | r in stages && r != t ensures r in s.tasks && s.tasks[r].key != s.tasks[t].key {
      if s.tasks[r].key == s.tasks[t].key {
        OneInsidePerKey(s, t, r);
      }
    }
  }

  lemma OtherStages(tasks: map<TaskId, Phase>, rows: map<Key, ProjectId>, stages: map<TaskId, Stage>, t: TaskId)
    requires StagesBound(tasks, rows, stages) && t in stages && t in tasks
    requires forall r {:trigger stages[r]} :: r in stages && r != t ==> r in tasks && tasks[r].key != tasks[t].key
    ensures StagesBound(tasks, rows - {tasks[t].key}, stages[t := Finished])
  {
  }

  lemma CommitEngines(w: World, t: TaskId)
    requires Bound(w) && Can(w, Commit(t)) && w.stages[t].Removed?
    ensures EnginesHeld(w.registry, Do(w, Commit(t)).rows, w.engines)
  {
    hide Inv, EnginesNamed, StagesBound, RowsNamed, Registered;
    var s := w.registry;
    var rows := Do(w, Commit(t)).rows;
    forall k, v | Registered(s, k, v) ensures EngineOf(rows, w.engines, k, v) {
      assert EngineOf(w.rows, w.engines, k, v);
      NoneRegisteredInside(s, t, v);
    }
  }

  lemma EnsureProjectKeeps(w: World, key: Key)
    requires Bound(w)
    ensures Bound(Do(w, EnsureProject(key)))
  {
    hide Inv, Registered;
    var w' := Do(w, EnsureProject(key));
    assert EnginesHeld(w.registry, w'.rows, w'.engines) by {
      forall k, v | Registered(w.registry, k, v) ensures EngineOf(w'.rows, w'.engines, k, v) {
        assert EngineOf(w.rows, w.engines, k, v);
      }
    }
  }

  lemma StageKeeps(w: World, act: Act)
    requires Bound(w) && Can(w, act) && (act.DeleteRows? || act.RemoveDir?)
    ensures Bound(Do(w, act))
  {
    hide Inv, EnginesHeld, EnginesNamed, RowsNamed;
  }

  /** Every act keeps the world bound, whatever it rebuilds under whom. */
  lemma DoKeeps(w: World, act: Act)
    requires Bound(w) && Can(w, act)
    ensures Bound(Do(w, act))
  {
    hide Inv, EnginesHeld, EnginesNamed, RowsNamed, StagesBound;
    match act
    case Registry(step) => RegistryKeeps(w, step);
    case EnsureProject(key) => EnsureProjectKeeps(w, key);
    case OpeningWrites(t) =>
    case EngineWrites(v) =>
    case DeleteRows(t) => StageKeeps(w, act);
    case RemoveDir(t) => StageKeeps(w, act);
    case Commit(t) => CommitKeeps(w, t);
    case Crash => CrashKeeps(w);
  }

  lemma CrashKeeps(w: World)
    requires Bound(w)
    ensures Bound(Do(w, Crash))
  {
    hide RowsNamed;
    StartBound(w.registry.capacity);
    hide Inv, Registered;
  }

  lemma {:induction false} HistoryKeeps(w: World, acts: seq<Act>)
    requires Bound(w) && IsHistory(w, acts)
    ensures Bound(Later(w, acts))
    decreases |acts|
  {
    hide Bound, Can, Do;
    if acts != [] {
      DoKeeps(w, acts[0]);
      HistoryKeeps(Do(w, acts[0]), acts[1..]);
    }
  }

  lemma StartBound(capacity: nat)
    ensures Bound(Start(capacity))
  {
  }

  // --- The rows go last ------------------------------------------------------------------------

  /**
   The one act that loses a project's row is the commit of the task inside that project's slot, once that
   task has removed the directory. Whatever fails or crashes before it leaves the rows as they were.
   */
  lemma RowsGoLast(w: World, act: Act, key: Key)
    requires Bound(w) && Can(w, act)
    requires key in w.rows && !RowOf(Do(w, act).rows, key, w.rows[key])
    ensures act.Commit? && act.task in w.stages && w.stages[act.task] == Removed(w.rows[key])
    ensures w.registry.tasks[act.task] == Working(key, w.registry.book.open[key].slot)
    ensures forall v :: !Registered(w.registry, key, v)
  {
    hide EnginesHeld, EnginesNamed, RowsNamed, Registered;
    OnlyCommitLosesRows(w, act, key);
    var t := act.task;
    InsideItsSlot(w.registry, t);
    hide Inv, StagesBound;
    forall v ensures !Registered(w.registry, key, v) {
      NoneRegisteredInside(w.registry, t, v);
    }
  }

  lemma OnlyCommitLosesRows(w: World, act: Act, key: Key)
    requires StagesBound(w.registry.tasks, w.rows, w.stages) && Can(w, act)
    requires key in w.rows && !RowOf(Do(w, act).rows, key, w.rows[key])
    ensures act.Commit? && act.task in w.stages && w.stages[act.task] == Removed(w.rows[key])
    ensures w.registry.tasks[act.task].Working? && w.registry.tasks[act.task].key == key
  {
    hide Enabled, Apply;
  }

  lemma InsideItsSlot(s: State, t: TaskId)
    requires Inv(s) && t in s.tasks && s.tasks[t].Working?
    ensures s.tasks[t].key in s.book.open
    ensures s.tasks[t] == Working(s.tasks[t].key, s.book.open[s.tasks[t].key].slot)
  {
  }

  /** A purge comes to have removed a directory by removing it, which leaves no directory there. */
  lemma RemovedByRemoving(w: World, act: Act, t: TaskId, p: ProjectId)
    requires Can(w, act) && t in Do(w, act).stages && Do(w, act).stages[t] == Removed(p)
    ensures (t in w.stages && w.stages[t] == Removed(p)) || (act == RemoveDir(t) && p !in Do(w, act).dirs)
  {
    hide Enabled, Apply;
  }

  /** From before its transaction begins until `then` returns, a purge is inside the slot of the project it purges. */
  lemma HeldThroughout(w: World, act: Act, t: TaskId)
    requires Bound(w) && Can(w, act) && t in w.stages && t in Do(w, act).stages
    ensures t in w.registry.tasks && w.registry.tasks[t].Working?
    ensures t in Do(w, act).registry.tasks && Do(w, act).registry.tasks[t] == w.registry.tasks[t]
  {
    hide Inv, EnginesHeld, EnginesNamed, RowsNamed, Enabled, Apply;
    if act.Registry? {
      StaysInside(w, act.step, t);
    }
  }

  // --- A whole purge, over a history -----------------------------------------------------------

  /** The world before the act at `m`. */
  ghost function WorldAt(w: World, acts: seq<Act>, m: nat): World
    requires IsHistory(w, acts) && m <= |acts|
    decreases m
  {
    if m == 0 then w else WorldAt(Do(w, acts[0]), acts[1..], m - 1)
  }

  lemma {:induction false} AtNext(w: World, acts: seq<Act>, m: nat)
    requires IsHistory(w, acts) && m < |acts|
    ensures Can(WorldAt(w, acts, m), acts[m]) && WorldAt(w, acts, m + 1) == Do(WorldAt(w, acts, m), acts[m])
    decreases m
  {
    hide Can, Do;
    if m > 0 {
      AtNext(Do(w, acts[0]), acts[1..], m - 1);
    }
  }

  lemma {:induction false} AtKeeps(w: World, acts: seq<Act>, m: nat)
    requires Bound(w) && IsHistory(w, acts) && m <= |acts|
    ensures Bound(WorldAt(w, acts, m))
    decreases m
  {
    hide Bound, Can, Do;
    if m > 0 {
      AtKeeps(w, acts, m - 1);
      AtNext(w, acts, m - 1);
      DoKeeps(WorldAt(w, acts, m - 1), acts[m - 1]);
    }
  }

  /** `t` is inside the slot of `k`, as it was when it had come to be at `phase`. */
  ghost predicate Inside(w: World, t: TaskId, k: Key, phase: Phase) {
    && t in w.registry.tasks && w.registry.tasks[t] == phase
    && k in w.registry.book.open && phase == Working(k, w.registry.book.open[k].slot)
  }

  lemma WorkingIsInside(w: World, t: TaskId)
    requires Bound(w) && Doing(w, t)
    ensures Inside(w, t, w.registry.tasks[t].key, w.registry.tasks[t])
  {
    InsideItsSlot(w.registry, t);
  }

  /** A stage was there before, or was just come to by the task's own act. */
  lemma StageCame(w: World, act: Act, t: TaskId)
    requires Can(w, act) && t in Do(w, act).stages
    ensures t in w.stages || (act == DeleteRows(t) && Doing(w, t) && Do(w, act).registry == w.registry)
    ensures Do(w, act).stages[t].Deleted? ==>
              (t in w.stages && w.stages[t] == Do(w, act).stages[t]) || act == DeleteRows(t)
    ensures Do(w, act).stages[t].Removed? ==>
              t in w.stages && (w.stages[t] == Do(w, act).stages[t]
                  || RemovedBy(w, act, t, Do(w, act).stages[t].project))
  {
    hide Enabled, Apply;
  }

  /** `act` removed the directory of `p`, whose row `t` had deleted. */
  ghost predicate RemovedBy(w: World, act: Act, t: TaskId, p: ProjectId)
    requires Can(w, act) && t in w.stages
  {
    act == RemoveDir(t) && w.stages[t] == Deleted(Some(p)) && p !in Do(w, act).dirs
  }

  lemma StageCameInside(w: World, act: Act, t: TaskId, k: Key, phase: Phase)
    requires Bound(w) && Can(w, act) && t in Do(w, act).stages && Inside(Do(w, act), t, k, phase)
    ensures Inside(w, t, k, phase)
  {
    hide Bound, Can, Do, Inside;
    StageCame(w, act, t);
    if t in w.stages {
      HeldThroughout(w, act, t);
    }
    InsideWas(w, Do(w, act), t, k, phase);
  }

  lemma InsideWas(w: World, next: World, t: TaskId, k: Key, phase: Phase)
    requires Bound(w) && Doing(w, t) && Inside(next, t, k, phase) && next.registry.tasks[t] == w.registry.tasks[t]
    ensures Inside(w, t, k, phase)
  {
    hide Bound;
    WorkingIsInside(w, t);
  }

  lemma {:induction false} SinceDeleted(w: World, acts: seq<Act>, n: nat, t: TaskId, k: Key, phase: Phase)
      returns (i: nat)
    requires Bound(w) && IsHistory(w, acts) && n <= |acts| && t !in w.stages
    requires t in WorldAt(w, acts, n).stages && WorldAt(w, acts, n).stages[t].Deleted?
        && Inside(WorldAt(w, acts, n), t, k, phase)
    ensures i < n && acts[i] == DeleteRows(t)
    ensures t in WorldAt(w, acts, i + 1).stages && WorldAt(w, acts, i + 1).stages[t] == WorldAt(w, acts, n).stages[t]
    ensures forall m :: i <= m <= n ==> Inside(WorldAt(w, acts, m), t, k, phase)
    decreases n
  {
    hide Bound, Can, Do, Inside;
    assert n > 0;
    AtNext(w, acts, n - 1);
    AtKeeps(w, acts, n - 1);
    StageCame(WorldAt(w, acts, n - 1), acts[n - 1], t);
    StageCameInside(WorldAt(w, acts, n - 1), acts[n - 1], t, k, phase);
    if acts[n - 1] == DeleteRows(t) {
      i := n - 1;
    } else {
      i := SinceDeleted(w, acts, n - 1, t, k, phase);
    }
  }

  lemma {:induction false} SinceRemoved(w: World, acts: seq<Act>, n: nat, t: TaskId, k: Key, phase: Phase)
    returns (i: nat, j: nat)
    requires Bound(w) && IsHistory(w, acts) && n <= |acts| && t !in w.stages
    requires t in WorldAt(w, acts, n).stages && WorldAt(w, acts, n).stages[t].Removed?
        && Inside(WorldAt(w, acts, n), t, k, phase)
    ensures i < j < n && acts[i] == DeleteRows(t) && acts[j] == RemoveDir(t)
    ensures WorldAt(w, acts, n).stages[t].project !in WorldAt(w, acts, j + 1).dirs
    ensures t in WorldAt(w, acts, i + 1).stages
        && WorldAt(w, acts, i + 1).stages[t] == Deleted(Some(WorldAt(w, acts, n).stages[t].project))
    ensures forall m :: i <= m <= n ==> Inside(WorldAt(w, acts, m), t, k, phase)
    decreases n
  {
    hide Bound, Can, Do, Inside;
    assert n > 0;
    AtNext(w, acts, n - 1);
    AtKeeps(w, acts, n - 1);
    StageCame(WorldAt(w, acts, n - 1), acts[n - 1], t);
    StageCameInside(WorldAt(w, acts, n - 1), acts[n - 1], t, k, phase);
    if WorldAt(w, acts, n - 1).stages[t] == WorldAt(w, acts, n).stages[t] {
      i, j := SinceRemoved(w, acts, n - 1, t, k, phase);
    } else {
      j := n - 1;
      i := SinceDeleted(w, acts, n - 1, t, k, phase);
    }
  }

  /**
   Over every history, whatever is opened, rebuilt, fails or crashes in it: when a project's row is lost, it is by
   the commit of a task that deleted that row in its transaction, then removed the project's directory, and has been
   inside the slot of the project's key at every act from before the first to the last.
   */
  lemma PurgesInOrder(capacity: nat, acts: seq<Act>, n: nat, key: Key)
    returns (t: TaskId, phase: Phase, i: nat, j: nat)
    requires IsHistory(Start(capacity), acts) && n < |acts| && key in WorldAt(Start(capacity), acts, n).rows
    requires var p := WorldAt(Start(capacity), acts, n).rows[key]; !RowOf(WorldAt(Start(capacity), acts, n + 1).rows,
        key, p)
    ensures i < j < n && acts[i] == DeleteRows(t) && acts[j] == RemoveDir(t) && acts[n] == Commit(t)
    ensures var p := WorldAt(Start(capacity), acts, n).rows[key];
            && t in WorldAt(Start(capacity), acts, i + 1).stages
                && WorldAt(Start(capacity), acts, i + 1).stages[t] == Deleted(Some(p))
            && p !in WorldAt(Start(capacity), acts, j + 1).dirs
    ensures forall m :: i <= m <= n ==> Inside(WorldAt(Start(capacity), acts, m), t, key, phase)
  {
    hide Bound, Can, Do, Inside, RowOf, Registered;
    StartBound(capacity);
    var start := Start(capacity);
    AtKeeps(start, acts, n);
    AtNext(start, acts, n);
    var w := WorldAt(start, acts, n);
    RowsGoLast(w, acts[n], key);
    t := acts[n].task;
    CommitterIsInside(w, t);
    phase := w.registry.tasks[t];
    i, j := SinceRemoved(start, acts, n, t, key, phase);
  }

  lemma CommitterIsInside(w: World, t: TaskId)
    requires Bound(w) && Can(w, Commit(t))
    ensures t in w.registry.tasks && Inside(w, t, w.registry.tasks[t].key, w.registry.tasks[t])
  {
    hide Bound;
    WorkingIsInside(w, t);
  }

  // --- Other projects --------------------------------------------------------------------------

  /** A directory is removed by nothing but a task inside its own project's slot that has deleted that very row. */
  lemma LostByRemoving(w: World, act: Act, q: ProjectId)
    requires Bound(w) && Can(w, act) && q in w.dirs && q !in Do(w, act).dirs
    ensures act.RemoveDir? && act.task in w.stages && w.stages[act.task] == Deleted(Some(q)) && Doing(w, act.task)
    ensures RowOf(w.rows, w.registry.tasks[act.task].key, q)
  {
    hide Enabled, Apply, Inv, RowsNamed, EnginesHeld, EnginesNamed;
  }

  /** And one comes of opening that project, or writing through an engine of it, and of nothing else. */
  lemma BroughtByItsOwn(w: World, act: Act, q: ProjectId)
    requires Bound(w) && Can(w, act) && q !in w.dirs
    ensures q in Do(w, act).dirs <==>
            || (act.EngineWrites? && act.value in w.engines && w.engines[act.value] == q)
            || (act.OpeningWrites? && Opens(w, act.task, q))
            || (act.Registry? && act.step.Opened? && Opens(w, act.step.task, q))
  {
    hide Apply, Inv, RowsNamed, StagesBound, EnginesHeld, EnginesNamed, ValueCount, Unused;
  }

  /** `t` is opening `q`. */
  ghost predicate Opens(w: World, t: TaskId, q: ProjectId) {
    t in w.registry.tasks && w.registry.tasks[t].Opening? && RowOf(w.rows, w.registry.tasks[t].key, q)
  }

  /** A row comes only of making a project, whose number is new. */
  lemma RowsComeNew(w: World, act: Act, key: Key)
    requires Bound(w) && Can(w, act) && key in Do(w, act).rows
    requires key !in w.rows || w.rows[key] != Do(w, act).rows[key]
    ensures act == EnsureProject(key) && key !in w.rows
    ensures Do(w, act).rows[key] !in w.named && Do(w, act).rows[key] !in w.purged
  {
    hide Enabled, Apply, Inv, StagesBound, EnginesHeld, EnginesNamed;
  }

  lemma {:induction false} LostSometime(w: World, acts: seq<Act>, m: nat, n: nat, q: ProjectId) returns (j: nat)
    requires Bound(w) && IsHistory(w, acts) && m <= n <= |acts|
    requires q in WorldAt(w, acts, m).dirs && q !in WorldAt(w, acts, n).dirs
    ensures m <= j < n && q in WorldAt(w, acts, j).dirs && q !in WorldAt(w, acts, j + 1).dirs
    decreases n
  {
    hide Bound, Can, Do, IsHistory, WorldAt;
    if q in WorldAt(w, acts, n - 1).dirs {
      j := n - 1;
    } else {
      j := LostSometime(w, acts, m, n - 1, q);
    }
  }

  /**
   Over every history: a directory there is, and is no longer later on, was removed by a task that had deleted that very
   project's row in its transaction, and was inside the slot of the project's key from the one to the other. Whatever is
   purged leaves every other project's directory alone.
   */
  lemma LostByItsOwnPurge(capacity: nat, acts: seq<Act>, m: nat, n: nat, q: ProjectId)
      returns (t: TaskId, k: Key, phase: Phase, i: nat, j: nat)
    requires IsHistory(Start(capacity), acts) && m <= n <= |acts|
    requires q in WorldAt(Start(capacity), acts, m).dirs && q !in WorldAt(Start(capacity), acts, n).dirs
    ensures m <= j < n && i < j && acts[i] == DeleteRows(t) && acts[j] == RemoveDir(t)
    ensures RowOf(WorldAt(Start(capacity), acts, i).rows, k, q)
    ensures forall x :: i <= x <= j ==> Inside(WorldAt(Start(capacity), acts, x), t, k, phase)
  {
    hide Bound, Can, Do, Inside, RowOf, IsHistory, WorldAt;
    StartBound(capacity);
    var start := Start(capacity);
    j := LostSometime(start, acts, m, n, q);
    AtNext(start, acts, j);
    AtKeeps(start, acts, j);
    var w := WorldAt(start, acts, j);
    LostByRemoving(w, acts[j], q);
    t := acts[j].task;
    WorkingIsInside(w, t);
    k, phase := w.registry.tasks[t].key, w.registry.tasks[t];
    i := SinceDeleted(start, acts, j, t, k, phase);
    AtNext(start, acts, i);
    AtKeeps(start, acts, i);
    DeletedRowIs(WorldAt(start, acts, i), t, k, phase, q);
  }

  lemma DeletedRowIs(w: World, t: TaskId, k: Key, phase: Phase, q: ProjectId)
    requires Can(w, DeleteRows(t)) && Inside(w, t, k, phase)
    requires t in Do(w, DeleteRows(t)).stages && Do(w, DeleteRows(t)).stages[t] == Deleted(Some(q))
    ensures RowOf(w.rows, k, q)
  {
  }

  /**
   So a project whose row no transaction ever deletes keeps its directory, whatever else is purged, fails or
   crashes.
   */
  lemma UnpurgedKeepsDirectory(capacity: nat, acts: seq<Act>, m: nat, n: nat, q: ProjectId)
    requires IsHistory(Start(capacity), acts) && m <= n <= |acts| && q in WorldAt(Start(capacity), acts, m).dirs
    requires forall i, t, k, phase ::
        0 <= i < n && acts[i] == DeleteRows(t) && Inside(WorldAt(Start(capacity), acts, i), t, k, phase)
        ==> !RowOf(WorldAt(Start(capacity), acts, i).rows, k, q)
    ensures q in WorldAt(Start(capacity), acts, n).dirs
  {
    hide Bound, Can, Do, Inside, RowOf, IsHistory, WorldAt;
    if q !in WorldAt(Start(capacity), acts, n).dirs {
      var t, k, phase, i, j := LostByItsOwnPurge(capacity, acts, m, n, q);
    }
  }

  // --- Whether a directory comes back ----------------------------------------------------------

  /** A caller holds an engine that writes to `p`'s directory. */
  ghost predicate AtLarge(w: World, p: ProjectId) {
    exists v :: v in w.registry.callers && v in w.engines && w.engines[v] == p
  }

  /** `p` is purged, or a purge under way has removed its directory. */
  ghost predicate Going(w: World, p: ProjectId) {
    p in w.purged || exists t :: t in w.stages && w.stages[t] == Removed(p)
  }

  /** The engines of a project that is going are registered nowhere, and none is being opened. */
  lemma GoingIsDeserted(w: World, p: ProjectId)
    requires Bound(w) && Going(w, p)
    ensures Deserted(w, p)
  {
    hide Inv, EnginesNamed, Registered;
    forall k | RowOf(w.rows, k, p)
      ensures forall v :: !Registered(w.registry, k, v)
      ensures forall t :: t in w.registry.tasks && w.registry.tasks[t].Opening? ==> w.registry.tasks[t].key != k
    {
      GoingSlotIsWorkedOn(w, p, k);
    }
    forall k, v | Registered(w.registry, k, v) ensures EngineOf(w.rows, w.engines, k, v) && w.engines[v] != p {
      assert EngineOf(w.rows, w.engines, k, v);
      assert !RowOf(w.rows, k, p);
    }
  }

  lemma GoingSlotIsWorkedOn(w: World, p: ProjectId, k: Key)
    requires Bound(w) && Going(w, p) && RowOf(w.rows, k, p)
    ensures forall v :: !Registered(w.registry, k, v)
    ensures forall t :: t in w.registry.tasks && w.registry.tasks[t].Opening? ==> w.registry.tasks[t].key != k
  {
    hide EnginesNamed, EnginesHeld, Registered;
    assert p !in w.purged;
    var r :| r in w.stages && w.stages[r] == Removed(p);
    assert RowOf(w.rows, w.registry.tasks[r].key, p);
    assert w.registry.tasks[r].key == k;
    hide Inv;
    forall v ensures !Registered(w.registry, k, v) {
      NoneRegisteredInside(w.registry, r, v);
    }
    forall t | t in w.registry.tasks && w.registry.tasks[t].Opening? ensures w.registry.tasks[t].key != k {
      if w.registry.tasks[t].key == k {
        OneInsidePerKey(w.registry, t, r);
      }
    }
  }

  /** What brings such a directory back is a write through an engine the registry no longer has. */
  lemma OnlyAtLargeBringsBack(w: World, act: Act, p: ProjectId)
    requires Bound(w) && Can(w, act) && Going(w, p) && p !in w.dirs && p in Do(w, act).dirs
    ensures act.EngineWrites? && act.value in w.registry.callers && act.value in w.engines && w.engines[act.value] == p
    ensures forall k :: !Registered(w.registry, k, act.value)
  {
    hide Bound, Registered, Apply;
    GoingIsDeserted(w, p);
    OnlyWritersBring(w, act, p);
  }

  /** A directory comes of opening its project's engine, or of writing through one. */
  lemma OnlyWritersBring(w: World, act: Act, p: ProjectId)
    requires Can(w, act) && p !in w.dirs && p in Do(w, act).dirs
    requires Deserted(w, p)
    ensures act.EngineWrites? && act.value in w.registry.callers && act.value in w.engines && w.engines[act.value] == p
  {
    hide Apply, ValueCount, Unused;
  }

  lemma NobodyBringsBack(w: World, act: Act, p: ProjectId)
    requires Can(w, act) && p !in w.dirs && !AtLarge(w, p)
    requires Deserted(w, p)
    ensures p !in Do(w, act).dirs
  {
    hide Enabled, Apply;
    if p in Do(w, act).dirs {
      OnlyWritersBring(w, act, p);
    }
  }

  /** Nobody has an engine of `p` to give out: the registry has none, and nobody is opening one. */
  ghost predicate Deserted(w: World, p: ProjectId) {
    && (forall k, v :: Registered(w.registry, k, v) ==> EngineOf(w.rows, w.engines, k, v) && w.engines[v] != p)
    && (forall t ::
        t in w.registry.tasks && w.registry.tasks[t].Opening? ==> !RowOf(w.rows, w.registry.tasks[t].key, p))
  }

  /** And such an engine is at large already: nobody gets hold of one anew. */
  lemma NobodyGetsHold(w: World, act: Act, p: ProjectId)
    requires Bound(w) && Can(w, act) && Deserted(w, p) && AtLarge(Do(w, act), p)
    ensures AtLarge(w, p)
  {
    hide Bound, Deserted, Enabled, Apply;
    var w' := Do(w, act);
    var v :| v in w'.registry.callers && v in w'.engines && w'.engines[v] == p;
    if act.Registry? {
      HeldBefore(w, act.step, p, v);
    }
    IsAtLarge(w, p, v);
  }

  lemma HeldBefore(w: World, step: Step, p: ProjectId, v: ValueId)
    requires Bound(w) && Can(w, Registry(step)) && Deserted(w, p)
    requires v in Apply(w.registry, step).callers && v in Do(w, Registry(step)).engines
        && Do(w, Registry(step)).engines[v] == p
    ensures v in w.registry.callers && v in w.engines && w.engines[v] == p
  {
    hide StagesBound, RowsNamed, EnginesHeld;
    if !(step.Opened? && step.value == v) {
      assert v in w.engines && v in w.registry.born;
      if v !in w.registry.callers {
        OnlyTheseShare(w.registry, step, v);
        SlotRegisters(w.registry, step.task, v);
      }
    }
  }

  lemma SlotRegisters(s: State, t: TaskId, v: ValueId)
    requires Inv(s) && t in s.tasks && s.tasks[t].slot in s.slots && s.slots[s.tasks[t].slot].value == Some(v)
    ensures Registered(s, s.tasks[t].key, v)
  {
  }

  // --- Gone for good ---------------------------------------------------------------------------

  ghost predicate NeverBack(w: World, p: ProjectId) {
    forall acts :: IsHistory(w, acts) ==> p !in Later(w, acts).dirs
  }

  lemma {:induction false} StaysGone(w: World, acts: seq<Act>, p: ProjectId)
    requires Bound(w) && p in w.purged && p !in w.dirs && !AtLarge(w, p) && IsHistory(w, acts)
    ensures p !in Later(w, acts).dirs
    decreases |acts|
  {
    hide Bound, Can, Do, AtLarge, Going, Deserted;
    if acts != [] {
      var w' := Do(w, acts[0]);
      PurgedIsGoing(w, acts[0], p);
      DoKeeps(w, acts[0]);
      GoingIsDeserted(w, p);
      if AtLarge(w', p) {
        NobodyGetsHold(w, acts[0], p);
      }
      if p in w'.dirs {
        OnlyAtLargeBringsBack(w, acts[0], p);
        IsAtLarge(w, p, acts[0].value);
      }
      StaysGone(w', acts[1..], p);
    }
  }

  lemma IsAtLarge(w: World, p: ProjectId, v: ValueId)
    requires v in w.registry.callers && v in w.engines && w.engines[v] == p
    ensures AtLarge(w, p)
  {
  }

  lemma PurgedIsGoing(w: World, act: Act, p: ProjectId)
    requires Can(w, act) && p in w.purged
    ensures Going(w, p) && p in Do(w, act).purged
  {
    hide Enabled, Apply;
  }

  /**
   A purged project never comes back exactly when its directory is not there and no caller holds an engine
   of it -- whatever requests, rebuilds, failures and crashes follow.
   */
  lemma GoneForGoodExactly(w: World, p: ProjectId)
    requires Bound(w) && p in w.purged
    ensures NeverBack(w, p) <==> p !in w.dirs && !AtLarge(w, p)
  {
    if p !in w.dirs && !AtLarge(w, p) {
      forall acts | IsHistory(w, acts) ensures p !in Later(w, acts).dirs {
        StaysGone(w, acts, p);
      }
    } else if p in w.dirs {
      assert IsHistory(w, []) && p in Later(w, []).dirs;
    } else {
      var v :| v in w.registry.callers && v in w.engines && w.engines[v] == p;
      OneAct(w, EngineWrites(v), []);
      assert p in Later(w, [EngineWrites(v)] + []).dirs;
    }
  }

  lemma OneAct(w: World, act: Act, rest: seq<Act>)
    requires Can(w, act) && IsHistory(Do(w, act), rest)
    ensures IsHistory(w, [act] + rest) && Later(w, [act] + rest) == Later(Do(w, act), rest)
  {
    hide Can, Do;
    assert ([act] + rest)[1..] == rest;
  }

  // --- What a purge comes to -------------------------------------------------------------------

  /** The `then` of `t` has neither returned nor been lost to a crash. */
  ghost predicate Staying(acts: seq<Act>, t: TaskId) {
    forall i :: 0 <= i < |acts| ==> acts[i] != Crash && acts[i] != Registry(ThenDone(t))
  }

  /** `t` is inside the slot of `p`'s key, and nobody else holds anything of `p`. */
  ghost predicate AloneWith(w: World, t: TaskId, k: Key, p: ProjectId) {
    && Bound(w)
    && t in w.registry.tasks && w.registry.tasks[t].Working? && w.registry.tasks[t].key == k
    && !AtLarge(w, p)
    && (p in w.purged || RowOf(w.rows, k, p))
    && (p in w.purged || (t in w.stages && w.stages[t].Removed?) ==> p !in w.dirs)
  }

  lemma AloneStays(w: World, act: Act, t: TaskId, k: Key, p: ProjectId)
    requires AloneWith(w, t, k, p) && Can(w, act) && act != Crash && act != Registry(ThenDone(t))
    ensures AloneWith(Do(w, act), t, k, p)
  {
    hide Inv, EnginesHeld, EnginesNamed, Enabled, Apply;
    DoKeeps(w, act);
    AloneInside(w, act, t);
    AloneRow(w, act, t, k, p);
    AloneDirs(w, act, t, k, p);
    hide Bound, AtLarge;
    AloneAtLarge(w, act, t, k, p);
  }

  lemma AloneInside(w: World, act: Act, t: TaskId)
    requires Can(w, act) && act != Crash && act != Registry(ThenDone(t))
    requires t in w.registry.tasks && w.registry.tasks[t].Working?
    ensures t in Do(w, act).registry.tasks && Do(w, act).registry.tasks[t] == w.registry.tasks[t]
  {
    if act.Registry? {
      if By(act.step, t) {
        OnlyThenDone(w.registry, act.step, t);
      } else {
        OthersLeaveIt(w.registry, act.step, t);
      }
    }
  }

  /** The row of the key being worked on is lost to the worker alone. */
  lemma AloneRow(w: World, act: Act, t: TaskId, k: Key, p: ProjectId)
    requires AloneWith(w, t, k, p) && Can(w, act)
    ensures p in Do(w, act).purged || RowOf(Do(w, act).rows, k, p)
  {
    hide Bound, Enabled, Apply, AtLarge;
    if p !in w.purged && !RowOf(Do(w, act).rows, k, p) {
      RowsGoLast(w, act, k);
    }
  }

  /** Nobody opens the project being worked on, and the registry has no engine of it. */
  lemma AloneDeserted(w: World, t: TaskId, k: Key, p: ProjectId)
    requires AloneWith(w, t, k, p)
    ensures Deserted(w, p)
  {
    hide Inv, EnginesNamed, StagesBound, Registered, AtLarge;
    forall j, v | Registered(w.registry, j, v) ensures EngineOf(w.rows, w.engines, j, v) && w.engines[v] != p {
      assert EngineOf(w.rows, w.engines, j, v);
      NoneRegisteredInside(w.registry, t, v);
      assert w.named[w.rows[j]] == j;
    }
    forall r | r in w.registry.tasks && w.registry.tasks[r].Opening?
        ensures !RowOf(w.rows, w.registry.tasks[r].key, p) {
      if RowOf(w.rows, w.registry.tasks[r].key, p) {
        assert w.named[w.rows[w.registry.tasks[r].key]] == w.registry.tasks[r].key;
        OneInsidePerKey(w.registry, t, r);
      }
    }
  }

  lemma AloneAtLarge(w: World, act: Act, t: TaskId, k: Key, p: ProjectId)
    requires AloneWith(w, t, k, p) && Can(w, act) && act != Crash
    ensures !AtLarge(Do(w, act), p)
  {
    hide Bound, Deserted, AtLarge, Can, Do;
    AloneDeserted(w, t, k, p);
    if AtLarge(Do(w, act), p) {
      NobodyGetsHold(w, act, p);
    }
  }

  lemma AloneDirs(w: World, act: Act, t: TaskId, k: Key, p: ProjectId)
    requires AloneWith(w, t, k, p) && Can(w, act) && act != Crash && act != Registry(ThenDone(t))
    ensures var w' := Do(w, act); p in w'.purged || (t in w'.stages && w'.stages[t].Removed?) ==> p !in w'.dirs
  {
    AloneDeserted(w, t, k, p);
    var w' := Do(w, act);
    if p in w.purged || (t in w.stages && w.stages[t].Removed?) {
      NobodyBringsBack(w, act, p);
    } else {
      NewlyGone(w, act, t, k, p);
    }
  }

  /** What is newly gone of the project being worked on is what the worker has just removed. */
  lemma NewlyGone(w: World, act: Act, t: TaskId, k: Key, p: ProjectId)
    requires AloneWith(w, t, k, p) && Can(w, act) && p !in w.purged && !(t in w.stages && w.stages[t].Removed?)
    ensures var w' := Do(w, act); p in w'.purged || (t in w'.stages && w'.stages[t].Removed?) ==> p !in w'.dirs
  {
    var w' := Do(w, act);
    hide Enabled, Apply, AtLarge;
    if p in w'.purged {
      OnlyTheWorkerCommits(w, act, t, k, p);
    } else if t in w'.stages && w'.stages[t].Removed? {
      RemovedByRemoving(w, act, t, w'.stages[t].project);
      assert RowOf(w.rows, k, w.stages[t].found.value);
    }
  }

  lemma OnlyTheWorkerCommits(w: World, act: Act, t: TaskId, k: Key, p: ProjectId)
    requires Bound(w) && Can(w, act) && t in w.registry.tasks && w.registry.tasks[t].Working?
        && w.registry.tasks[t].key == k
    requires p !in w.purged && RowOf(w.rows, k, p) && p in Do(w, act).purged
    ensures act == Commit(t) && t in w.stages && w.stages[t] == Removed(p)
  {
    hide Inv, EnginesHeld, EnginesNamed, Enabled, Apply;
    assert act.Commit? && w.stages[act.task] == Removed(p);
    assert RowOf(w.rows, w.registry.tasks[act.task].key, p);
    assert w.named[p] == k && w.named[p] == w.registry.tasks[act.task].key;
    OneInsidePerKey(w.registry, act.task, t);
  }

  lemma {:induction false} AloneToTheEnd(w: World, acts: seq<Act>, t: TaskId, k: Key, p: ProjectId)
    requires AloneWith(w, t, k, p) && IsHistory(w, acts) && Staying(acts, t)
    ensures AloneWith(Later(w, acts), t, k, p)
    decreases |acts|
  {
    hide AloneWith, Can, Do;
    if acts != [] {
      assert acts[0] != Crash && acts[0] != Registry(ThenDone(t));
      AloneStays(w, acts[0], t, k, p);
      assert forall i :: 0 <= i < |acts[1..]| ==> acts[1..][i] == acts[i + 1];
      AloneToTheEnd(Do(w, acts[0]), acts[1..], t, k, p);
    }
  }

  /** Whenever the `then` that `t` is about to run has purged `p`, `p` never comes back. */
  ghost predicate PurgeSticks(w: World, t: TaskId, p: ProjectId) {
    forall acts :: IsHistory(w, acts) && Staying(acts, t) && p in Later(w, acts).purged ==> NeverBack(Later(w, acts), p)
  }

  /**
   When a purge keeps its promise: about to delete a project, it never brings it back exactly when no caller
   holds an engine of it. `take_then` waited for the callers of the engine in the slot, and not for those of
   one a rebuild had put in its place.
   */
  lemma PurgeSticksExactly(w: World, t: TaskId)
    requires Bound(w) && Doing(w, t) && t !in w.stages && w.registry.tasks[t].key in w.rows
    ensures var p := w.rows[w.registry.tasks[t].key]; PurgeSticks(w, t, p) <==> !AtLarge(w, p)
  {
    var k := w.registry.tasks[t].key;
    var p := w.rows[k];
    if AtLarge(w, p) {
      PurgesAnyway(w, t);
    } else {
      assert p !in w.purged;
      forall acts | IsHistory(w, acts) && Staying(acts, t) && p in Later(w, acts).purged
          ensures NeverBack(Later(w, acts), p) {
        AloneToTheEnd(w, acts, t, k, p);
        GoneForGoodExactly(Later(w, acts), p);
      }
    }
  }

  lemma PurgesAnyway(w: World, t: TaskId)
    requires Bound(w) && Doing(w, t) && t !in w.stages && w.registry.tasks[t].key in w.rows
    requires AtLarge(w, w.rows[w.registry.tasks[t].key])
    ensures !PurgeSticks(w, t, w.rows[w.registry.tasks[t].key])
  {
    hide NeverBack, AtLarge, Can, Do, IsHistory, Later;
    var p := w.rows[w.registry.tasks[t].key];
    var acts := ThenPurges(w, t);
    HistoryKeeps(w, acts);
    GoneForGoodExactly(Later(w, acts), p);
  }

  /** The transaction of a purge as it goes when nothing fails. */
  lemma ThenPurges(w: World, t: TaskId) returns (acts: seq<Act>)
    requires Doing(w, t) && t !in w.stages && w.registry.tasks[t].key in w.rows
    ensures IsHistory(w, acts) && Staying(acts, t)
    ensures var p := w.rows[w.registry.tasks[t].key];
            && w.registry.tasks[t].key !in Later(w, acts).rows && p !in Later(w, acts).dirs
            && p in Later(w, acts).purged && (AtLarge(w, p) ==> AtLarge(Later(w, acts), p))
  {
    hide Enabled, Apply;
    var deleting := Do(w, DeleteRows(t));
    var removed := Do(deleting, RemoveDir(t));
    var committed := Do(removed, Commit(t));
    acts := [DeleteRows(t)] + ([RemoveDir(t)] + ([Commit(t)] + []));
    assert committed.registry == w.registry && committed.engines == w.engines;
    assert w.rows[w.registry.tasks[t].key] in committed.purged;
    hide Can, Do;
    OneAct(removed, Commit(t), []);
    OneAct(deleting, RemoveDir(t), [Commit(t)] + []);
    OneAct(w, DeleteRows(t), [RemoveDir(t)] + ([Commit(t)] + []));
  }

  // --- A project used with care ----------------------------------------------------------------

  /** No rebuild of `k` in it discards an engine a caller is inside. */
  ghost predicate CarefulWith(w: World, acts: seq<Act>, k: Key)
    requires IsHistory(w, acts)
    decreases |acts|
  {
    acts == [] || (!DiscardsUnder(w, acts[0], k) && CarefulWith(Do(w, acts[0]), acts[1..], k))
  }

  ghost predicate DiscardsUnder(w: World, act: Act, k: Key) {
    act.Registry? && DiscardsHeld(w.registry, act.step, k)
  }

  /** Every caller of `k` holds the engine the registry has, and what is going of `k` has no directory. */
  ghost predicate KeySound(w: World, k: Key) {
    && Bound(w) && Shared(w.registry, k)
    && forall p :: p in w.named && w.named[p] == k && Going(w, p) ==> p !in w.dirs
  }

  /** A project of a key whose callers share its engine is held by no caller once it is going. */
  lemma SharedIsNotAtLarge(w: World, k: Key, p: ProjectId)
    requires Bound(w) && Shared(w.registry, k) && p in w.named && w.named[p] == k && Going(w, p)
    ensures !AtLarge(w, p)
  {
    GoingIsDeserted(w, p);
    if v :| v in w.registry.callers && v in w.engines && w.engines[v] == p {
      assert Born(w.registry.born, v, k);
    }
  }

  lemma KeyStaysSound(w: World, act: Act, k: Key)
    requires KeySound(w, k) && Can(w, act) && !DiscardsUnder(w, act, k)
    ensures KeySound(Do(w, act), k)
  {
    var w' := Do(w, act);
    DoKeeps(w, act);
    KeyStaysShared(w, act, k);
    forall p | p in w'.named && w'.named[p] == k && Going(w', p) ensures p !in w'.dirs {
      KeyDirStaysAway(w, act, k, p);
    }
  }

  lemma KeyStaysShared(w: World, act: Act, k: Key)
    requires Bound(w) && Shared(w.registry, k) && Can(w, act) && !DiscardsUnder(w, act, k)
    ensures Shared(Do(w, act).registry, k)
  {
    hide Inv, Enabled, Apply, EnginesHeld, EnginesNamed, RowsNamed, StagesBound;
    if act.Registry? {
      StepShares(w.registry, act.step, k);
    }
  }

  lemma KeyDirStaysAway(w: World, act: Act, k: Key, p: ProjectId)
    requires KeySound(w, k) && Can(w, act) && Bound(Do(w, act))
    requires p in Do(w, act).named && Do(w, act).named[p] == k && Going(Do(w, act), p)
    ensures p !in Do(w, act).dirs
  {
    hide Bound, Shared, Enabled, Apply, AtLarge;
    if Going(w, p) {
      NamesStay(w, act, p);
      if p in Do(w, act).dirs {
        SharedIsNotAtLarge(w, k, p);
        OnlyAtLargeBringsBack(w, act, p);
        IsAtLarge(w, p, act.value);
      }
    } else {
      NewlyGoing(w, act, p);
    }
  }

  lemma NamesStay(w: World, act: Act, p: ProjectId)
    requires Bound(w) && Can(w, act) && Going(w, p)
    ensures p in w.named && (p in Do(w, act).named ==> Do(w, act).named[p] == w.named[p])
  {
    hide Inv, EnginesHeld, EnginesNamed, Enabled, Apply;
    if p !in w.purged {
      var t :| t in w.stages && w.stages[t] == Removed(p);
      assert RowOf(w.rows, w.registry.tasks[t].key, p);
    }
  }

  lemma NewlyGoing(w: World, act: Act, p: ProjectId)
    requires Can(w, act) && !Going(w, p) && Going(Do(w, act), p)
    ensures p !in Do(w, act).dirs
  {
    hide Enabled, Apply;
    var w' := Do(w, act);
    if p !in w'.purged {
      var t :| t in w'.stages && w'.stages[t] == Removed(p);
      RemovedByRemoving(w, act, t, p);
    }
  }

  lemma {:induction false} KeySoundLater(w: World, acts: seq<Act>, k: Key)
    requires KeySound(w, k) && IsHistory(w, acts) && CarefulWith(w, acts, k)
    ensures KeySound(Later(w, acts), k)
    decreases |acts|
  {
    hide KeySound, Can, Do, DiscardsUnder;
    if acts != [] {
      KeyStaysSound(w, acts[0], k);
      KeySoundLater(Do(w, acts[0]), acts[1..], k);
    }
  }

  /**
   Gone for good: after any history of requests, failures and crashes in which no rebuild of its own key
   discards an engine under a caller, a purged project has no row, and never comes back -- whatever becomes
   of other projects, and whatever is done to any of them afterwards.
   */
  lemma {:induction false} PurgedForGood(capacity: nat, acts: seq<Act>, k: Key, p: ProjectId)
    requires IsHistory(Start(capacity), acts) && CarefulWith(Start(capacity), acts, k)
    requires p in Later(Start(capacity), acts).purged && p in Later(Start(capacity), acts).named
    requires Later(Start(capacity), acts).named[p] == k
    ensures NeverBack(Later(Start(capacity), acts), p)
    ensures forall j :: !RowOf(Later(Start(capacity), acts).rows, j, p)
  {
    StartBound(capacity);
    hide IsHistory, Later, CarefulWith, NeverBack;
    StartSound(capacity, k);
    KeySoundLater(Start(capacity), acts, k);
    var w := Later(Start(capacity), acts);
    assert Going(w, p);
    SharedIsNotAtLarge(w, k, p);
    GoneForGoodExactly(w, p);
  }

  lemma StartSound(capacity: nat, k: Key)
    ensures KeySound(Start(capacity), k)
  {
    StartBound(capacity);
  }

  // --- What a rebuild under a caller gives up --------------------------------------------------

  ghost predicate Seen(capacity: nat, w: World) {
    exists acts :: IsHistory(Start(capacity), acts) && Later(Start(capacity), acts) == w
  }

  lemma SeenNext(capacity: nat, w: World, act: Act) returns (w': World)
    requires Seen(capacity, w) && Can(w, act)
    ensures w' == Do(w, act) && Seen(capacity, w')
  {
    hide Can, Do;
    w' := Do(w, act);
    var acts :| IsHistory(Start(capacity), acts) && Later(Start(capacity), acts) == w;
    HistoriesJoin(Start(capacity), acts, act);
  }

  lemma {:induction false} HistoriesJoin(w: World, acts: seq<Act>, last: Act)
    requires IsHistory(w, acts) && Can(Later(w, acts), last)
    ensures IsHistory(w, acts + [last]) && Later(w, acts + [last]) == Do(Later(w, acts), last)
    decreases |acts|
  {
    hide Can, Do;
    if acts == [] {
      assert (acts + [last])[1..] == [];
    } else {
      assert (acts + [last])[0] == acts[0] && (acts + [last])[1..] == acts[1..] + [last];
      HistoriesJoin(Do(w, acts[0]), acts[1..], last);
    }
  }

  /** A step that opens nothing and ends no `then`, taken in the world: only the registry changes. */
  lemma StepSeen(capacity: nat, w: World, step: Step) returns (w': World)
    requires Seen(capacity, w) && Enabled(w.registry, step) && !step.Opened? && !step.ThenDone?
    ensures Seen(capacity, w') && w' == w.(registry := Apply(w.registry, step))
  {
    hide Enabled, Apply, Seen;
    w' := SeenNext(capacity, w, Registry(step));
  }

  /** Task 0 opens or reopens `k`, whose project is 0, and the engine it makes is `v`. */
  lemma RoundSeen(capacity: nat, w: World, op: Op, k: Key, v: ValueId, value: Option<ValueId>) returns (w': World)
    requires Seen(capacity, w) && v !in w.registry.born && w.rows == map[k := 0]
    requires op == (if value.Some? then Reopen else Get)
    requires if value.None? then w.registry == Init(capacity)
             else Standing(w.registry, k, None, Slot(k, None, value), w.registry.callers, w.registry.born)
    ensures Seen(capacity, w')
    ensures Standing(w'.registry, k, None, Slot(k, None, Some(v)), w.registry.callers + multiset{v},
        w.registry.born[v := k])
    ensures w' == w.(registry := w'.registry, engines := w.engines[v := 0], dirs := w.dirs + {0})
  {
    hide Seen, Enabled, Apply;
    StandingBegins(w.registry, 0, op, k, value);
    w' := StepSeen(capacity, w, Begin(0, op, k, 0, 0, {}));
    StandingAcquires(w'.registry, 0, op, k, value);
    w' := StepSeen(capacity, w', Acquire(0));
    StandingOpens(w'.registry, 0, op, k, value);
    w' := StepSeen(capacity, w', Enter(0));
    StandingStores(w'.registry, 0, k, v);
    w' := SeenNext(capacity, w', Registry(Opened(0, v)));
    StandingUnlocks(w'.registry, 0, k, Some(v));
    w' := StepSeen(capacity, w', Unlock(0));
    StandingLeaves(w'.registry, 0, k, Some(v));
    w' := StepSeen(capacity, w', Leave(0));
  }

  /** Task 0 takes `k` over engine 2, which nobody else holds, and is inside. */
  lemma TakeSeen(capacity: nat, w: World, k: Key) returns (w': World)
    requires Seen(capacity, w)
    requires Standing(w.registry, k, None, Slot(k, None, Some(2)), multiset{1}, map[1 := k, 2 := k])
    ensures Seen(capacity, w') && w' == w.(registry := w'.registry)
    ensures Standing(w'.registry, k, Some((0, Working(k, 0))), Slot(k, Some(0), None), multiset{1}, map[1 := k, 2 := k])
  {
    hide Seen, Enabled, Apply;
    StandingBegins(w.registry, 0, Take, k, Some(2));
    w' := StepSeen(capacity, w, Begin(0, Take, k, 0, 0, {}));
    StandingAcquires(w'.registry, 0, Take, k, Some(2));
    w' := StepSeen(capacity, w', Acquire(0));
    StandingTakes(w'.registry, 0, k, 2);
    w' := StepSeen(capacity, w', Enter(0));
    StandingDrains(w'.registry, 0, k, 2);
    w' := StepSeen(capacity, w', Drained(0));
  }

  lemma StandingTakes(s: State, t: TaskId, k: Key, v: ValueId)
    requires Standing(s, k, Some((t, Locked(Take, k, 0))), Slot(k, Some(t), Some(v)), s.callers, s.born)
    ensures Enabled(s, Enter(t))
    ensures Standing(Apply(s, Enter(t)), k, Some((t, Draining(k, 0, v))), Slot(k, Some(t), None), s.callers, s.born)
  {
  }

  lemma StandingDrains(s: State, t: TaskId, k: Key, v: ValueId)
    requires Standing(s, k, Some((t, Draining(k, 0, v))), Slot(k, Some(t), None), s.callers, s.born)
    requires v !in s.callers
    ensures Enabled(s, Drained(t))
    ensures Standing(Apply(s, Drained(t)), k, Some((t, Working(k, 0))), Slot(k, Some(t), None), s.callers, s.born)
  {
    assert (set id | id in s.slots && s.slots[id].value == Some(v)) == {};
    assert (set r | r in s.tasks && s.tasks[r].Takes() && s.tasks[r].taken == v) == {t};
    assert Apply(s, Drained(t)).tasks == map[t := Working(k, 0)];
    assert Apply(s, Drained(t)).slots == map[0 := Slot(k, Some(t), None)];
  }

  /**
   Why `PurgedForGood` needs its care: an engine a caller kept through a rebuild is not waited for,
   and puts the purged project's directory back.
   */
  lemma RebuildUnderCallerUndoesPurge(capacity: nat, k: Key) returns (w: World)
    ensures Seen(capacity, w) && 0 in w.purged && 0 in w.dirs
  {
    w := RebuiltUnderCaller(capacity, k);
    hide Seen, Enabled, Apply;
    w := TakeSeen(capacity, w, k);
    w := ThenSeen(capacity, w, k);
  }

  lemma RebuiltUnderCaller(capacity: nat, k: Key) returns (w: World)
    ensures Seen(capacity, w) && w.rows == map[k := 0] && w.stages == map[] && 1 in w.engines && w.engines[1] == 0
    ensures Standing(w.registry, k, None, Slot(k, None, Some(2)), multiset{1}, map[1 := k, 2 := k])
  {
    assert IsHistory(Start(capacity), []) && Later(Start(capacity), []) == Start(capacity);
    hide Seen, Enabled, Apply, IsHistory, Later;
    w := SeenNext(capacity, Start(capacity), EnsureProject(k));
    w := RoundSeen(capacity, w, Get, k, 1, None);
    w := RoundSeen(capacity, w, Reopen, k, 2, Some(1));
    w := ReleaseSeen(capacity, w, k);
  }

  lemma ReleaseSeen(capacity: nat, w: World, k: Key) returns (w': World)
    requires Seen(capacity, w)
    requires Standing(w.registry, k, None, Slot(k, None, Some(2)), multiset{} + multiset{1} + multiset{2},
        map[][1 := k][2 := k])
    ensures Seen(capacity, w') && w' == w.(registry := w'.registry)
    ensures Standing(w'.registry, k, None, Slot(k, None, Some(2)), multiset{1}, map[1 := k, 2 := k])
  {
    hide Seen;
    w' := StepSeen(capacity, w, Release(2));
  }

  lemma ThenSeen(capacity: nat, w: World, k: Key) returns (w': World)
    requires Seen(capacity, w) && Doing(w, 0) && w.registry.tasks[0].key == k && w.rows == map[k := 0]
        && w.stages == map[]
    requires 1 in w.registry.callers && 1 in w.engines && w.engines[1] == 0
    ensures Seen(capacity, w') && 0 in w'.purged && 0 in w'.dirs
  {
    hide Seen, Enabled, Apply;
    w' := SeenNext(capacity, w, DeleteRows(0));
    w' := SeenNext(capacity, w', RemoveDir(0));
    w' := SeenNext(capacity, w', Commit(0));
    w' := SeenNext(capacity, w', EngineWrites(1));
  }
}
