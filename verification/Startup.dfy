/**
 How a workspace gets its one server (`spawn` in `crates/client/src/client.rs`, `run` in
 `crates/cli/src/server.rs`): clients race for a lock file, the winner starts a server and waits for it
 to listen, and a server binds the socket only after failing to connect to it. Every client and every
 server takes its steps one at a time, in any order; the lock file and the socket are what they share.
 */
module Startup {
  import opened Wrappers

  type ClientId = nat
  type ServerId = nat

  /** The socket file: none, one nobody listens at, or one a server does. */
  datatype Socket = Absent | Stale | Live(server: ServerId)

  datatype Client =
    | Asking
    // found nobody listening
    | Racing
    // made the lock file
    | Won
    // waiting for somebody to listen, having started `child` itself or lost the race
    | Waiting(child: Option<ServerId>)
    // about to remove the lock file it made
    | Releasing
    | Through

  datatype Server =
    | Booting
    // found nobody listening
    | Checked
    // removed the socket file
    | Unlinked
    | Serving
    | Gone

  predicate NotYetBound(server: Server) {
    server.Booting? || server.Checked? || server.Unlinked?
  }

  datatype State = State(
    lock: Option<ClientId>,
    socket: Socket,
    clients: map<ClientId, Client>,
    servers: map<ServerId, Server>,
    // who started each server that a client did
    starter: map<ServerId, ClientId>)
  {
    function Client(c: ClientId): Client {
      if c in clients then clients[c] else Asking
    }

    predicate Is(s: ServerId, server: Server) {
      s in servers && servers[s] == server
    }

    predicate Unbound(s: ServerId) {
      s in servers && NotYetBound(servers[s])
    }
  }

  datatype Step =
    | Connect(c: ClientId)
    | TryLock(c: ClientId)
    // the server's log cannot be opened: the client returns there and then
    | LogFails(c: ClientId)
    | Spawn(c: ClientId, s: ServerId)
    | SpawnFails(c: ClientId)
    | SeeListening(c: ClientId)
    | SeeExit(c: ClientId)
    | TimeOut(c: ClientId)
    | Release(c: ClientId)
    | Kill(c: ClientId)
    | Check(s: ServerId)
    | Unlink(s: ServerId)
    | Bind(s: ServerId)
    // a server fails before it listens
    | Fail(s: ServerId)
    | Crash(s: ServerId)
    | Stop(s: ServerId)
    // `serve` run by hand
    | Foreground(s: ServerId)
    // a client replacing a server removes the socket file, whoever listens at it by then
    | Sweep

  predicate Enabled(st: State, step: Step) {
    match step
    case Connect(c) => st.Client(c).Asking?
    case TryLock(c) => st.Client(c).Racing?
    case LogFails(c) => st.Client(c).Won?
    case Spawn(c, s) => st.Client(c).Won? && s !in st.servers
    case SpawnFails(c) => st.Client(c).Won?
    case SeeListening(c) => st.Client(c).Waiting? && st.socket.Live?
    case SeeExit(c) => st.Client(c).Waiting? && st.Client(c).child.Some? && st.Is(st.Client(c).child.value, Gone)
    case TimeOut(c) => st.Client(c).Waiting?
    case Release(c) => st.Client(c).Releasing?
    case Kill(c) => true
    case Check(s) => st.Is(s, Booting)
    case Unlink(s) => st.Is(s, Checked)
    case Bind(s) => st.Is(s, Unlinked)
    case Fail(s) => st.Unbound(s)
    case Crash(s) => st.Is(s, Serving)
    case Stop(s) => st.Is(s, Serving)
    case Foreground(s) => s !in st.servers
    case Sweep => true
  }

  function WithClient(st: State, c: ClientId, client: Client): State {
    st.(clients := st.clients[c := client])
  }

  function WithServer(st: State, s: ServerId, server: Server): State {
    st.(servers := st.servers[s := server])
  }

  /** Done waiting: the one that made the lock file has it to remove. */
  function DoneWaiting(st: State, c: ClientId): State {
    WithClient(st, c, if st.Client(c).Waiting? && st.Client(c).child.Some? then Releasing else Through)
  }

  function Apply(st: State, step: Step): State
    requires Enabled(st, step)
  {
    match step
    case Connect(c) => WithClient(st, c, if st.socket.Live? then Through else Racing)
    case TryLock(c) =>
      if st.lock.None? then WithClient(st, c, Won).(lock := Some(c)) else WithClient(st, c, Waiting(None))
    case LogFails(c) => WithClient(st, c, Through)
    case Spawn(c, s) =>
      WithServer(WithClient(st, c, Waiting(Some(s))), s, Booting).(starter := st.starter[s := c])
    case SpawnFails(c) => WithClient(st, c, Through).(lock := None)
    case SeeListening(c) => DoneWaiting(st, c)
    case SeeExit(c) => DoneWaiting(st, c)
    case TimeOut(c) => DoneWaiting(st, c)
    case Release(c) => WithClient(st, c, Through).(lock := None)
    case Kill(c) => WithClient(st, c, Through)
    case Check(s) => WithServer(st, s, if st.socket.Live? then Gone else Checked)
    case Unlink(s) => WithServer(st, s, Unlinked).(socket := Absent)
    case Bind(s) =>
      if st.socket.Absent? then WithServer(st, s, Serving).(socket := Live(s)) else WithServer(st, s, Gone)
    case Fail(s) => WithServer(st, s, Gone)
    case Crash(s) => WithServer(st, s, Gone).(socket := if st.socket == Live(s) then Stale else st.socket)
    case Stop(s) => WithServer(st, s, Gone).(socket := Absent)
    case Foreground(s) => WithServer(st, s, Booting)
    case Sweep => st.(socket := Absent)
  }

  // --- What is always so -----------------------------------------------------------------------

  /** `s` was started by the client that made the lock file there is. */
  predicate Held(st: State, s: ServerId) {
    s in st.starter && st.lock == Some(st.starter[s])
  }

  ghost predicate Childless(st: State, c: ClientId) {
    forall s {:trigger st.starter[s]} :: s in st.starter ==> st.starter[s] != c
  }

  /** None of what `c` started may still come to listen. */
  ghost predicate Settled(st: State, c: ClientId) {
    forall s {:trigger st.starter[s]} :: s in st.starter && st.Unbound(s) ==> st.starter[s] != c
  }

  ghost predicate ClientSound(st: State, c: ClientId) {
    match st.Client(c)
    case Asking => Childless(st, c)
    case Racing => Childless(st, c)
    case Won => st.lock == Some(c) && Childless(st, c)
    case Waiting(child) =>
      (match child
       case None => Childless(st, c)
       case Some(s) => st.lock == Some(c) && s in st.starter && st.starter[s] == c)
    case Releasing => st.lock == Some(c) && (st.socket.Live? || Settled(st, c))
    case Through => true
  }

  ghost predicate ServerSound(st: State, s: ServerId)
    requires s in st.servers
  {
    match st.servers[s]
    case Booting => st.socket.Live? || Held(st, s)
    case Checked => !st.socket.Live? && Held(st, s)
    case Unlinked => st.socket.Absent? && Held(st, s)
    case Serving => st.socket == Live(s)
    case Gone => true
  }

  /** No client starts two servers. */
  ghost predicate OneEach(st: State) {
    forall s, t ::
      s in st.starter && t in st.starter && st.starter[s] == st.starter[t] ==> s == t
  }

  ghost predicate Inv(st: State) {
    && (forall c {:trigger st.Client(c)} :: ClientSound(st, c))
    && (forall s {:trigger st.servers[s]} :: s in st.servers ==> ServerSound(st, s))
    && (forall s {:trigger s in st.starter} :: s in st.starter ==> s in st.servers)
    && OneEach(st)
    && (st.socket.Live? ==> st.Is(st.socket.server, Serving))
    && OwnerSound(st)
  }

  /** The lock file is that of a client that made it. */
  ghost predicate OwnerSound(st: State) {
    st.lock.Some? ==>
      var owner := st.Client(st.lock.value);
      owner.Won? || owner.Releasing? || owner.Through? || (owner.Waiting? && owner.child.Some?)
  }

  /**
   What could break that, and when it does not: giving up on a server that may still come to listen,
   serving by hand, losing a server while another is starting, and removing the socket of a live one.
   */
  ghost predicate Careful(st: State, step: Step)
    requires Enabled(st, step)
  {
    match step
    case TimeOut(c) =>
      st.socket.Live? || st.Client(c).child.None? || !st.Unbound(st.Client(c).child.value)
    case Foreground(_) => st.socket.Live?
    case Crash(_) => AllHeld(st)
    case Stop(_) => AllHeld(st)
    case Sweep => !st.socket.Live?
    case _ => true
  }

  /** Whatever may still come to listen is waited for by the client with the lock. */
  ghost predicate AllHeld(st: State) {
    && (forall s {:trigger st.servers[s]} :: s in st.servers && NotYetBound(st.servers[s]) ==> Held(st, s))
    && (forall c {:trigger st.Client(c)} :: st.Client(c).Releasing? ==> Settled(st, c))
  }

  lemma InvServer(st: State, s: ServerId)
    requires Inv(st) && s in st.servers
    ensures ServerSound(st, s)
  {
  }

  lemma InvClient(st: State, c: ClientId)
    requires Inv(st)
    ensures ClientSound(st, c)
  {
  }

  // --- Steps -----------------------------------------------------------------------------------

  /** Only one server can be the one the lock file was made for. */
  lemma OneHeld(st: State, s: ServerId, t: ServerId)
    requires OneEach(st) && Held(st, s) && Held(st, t)
    ensures s == t
  {
  }

  lemma StepKeeps(st: State, step: Step)
    requires Inv(st) && Enabled(st, step) && Careful(st, step)
    ensures Inv(Apply(st, step))
  {
    var st' := Apply(st, step);
    forall c ensures ClientSound(st', c) {
      ClientKept(st, step, c);
    }
    forall s | s in st'.servers ensures ServerSound(st', s) {
      ServerKept(st, step, s);
    }
    OneEachKept(st, step);
    LiveKept(st, step);
    OwnerKept(st, step);
  }

  lemma OwnerKept(st: State, step: Step)
    requires Inv(st) && Enabled(st, step)
    ensures OwnerSound(Apply(st, step))
  {
    assert OwnerSound(st);
    match step
    case LogFails(c) => InvClient(st, c);
    case Spawn(c, _) => InvClient(st, c);
    case _ =>
  }

  lemma OneEachKept(st: State, step: Step)
    requires Inv(st) && Enabled(st, step)
    ensures OneEach(Apply(st, step))
    ensures forall s {:trigger s in Apply(st, step).starter} ::
        s in Apply(st, step).starter ==> s in Apply(st, step).servers
  {
    var st' := Apply(st, step);
    assert OneEach(st);
    if !step.Spawn? {
      assert st'.starter == st.starter;
    } else {
      InvClient(st, step.c);
      forall s, t | s in st'.starter && t in st'.starter && st'.starter[s] == st'.starter[t] ensures s == t {
        if s != step.s && t != step.s {
          assert st.starter[s] == st.starter[t];
        }
      }
    }
  }

  lemma LiveKept(st: State, step: Step)
    requires Inv(st) && Enabled(st, step)
    ensures var st' := Apply(st, step); st'.socket.Live? ==> st'.Is(st'.socket.server, Serving)
  {
    var st' := Apply(st, step);
    if st.socket.Live? && st'.socket == st.socket {
      var s := st.socket.server;
      assert st.Is(s, Serving) && !st.Unbound(s);
      match step
      case Crash(t) => InvServer(st, t);
      case _ => assert st'.Is(s, Serving);
    }
  }

  lemma ClientKept(st: State, step: Step, c: ClientId)
    requires Inv(st) && Enabled(st, step) && Careful(st, step)
    ensures ClientSound(Apply(st, step), c)
  {
    match step
    case Spawn(d, s) => SpawnKeepsClient(st, d, s, c);
    case SeeListening(d) => DoneKeepsClient(st, d, c);
    case SeeExit(d) => DoneKeepsClient(st, d, c);
    case TimeOut(d) => DoneKeepsClient(st, d, c);
    case TryLock(d) => LockKeepsClient(st, step, d, c);
    case SpawnFails(d) => LockKeepsClient(st, step, d, c);
    case Release(d) => LockKeepsClient(st, step, d, c);
    case _ => ServerStepKeepsClient(st, step, c);
  }

  lemma LockKeepsClient(st: State, step: Step, d: ClientId, c: ClientId)
    requires Inv(st) && Enabled(st, step) && (step == TryLock(d) || step == SpawnFails(d) || step == Release(d))
    ensures ClientSound(Apply(st, step), c)
  {
    InvClient(st, c);
    InvClient(st, d);
  }

  lemma ServerStepKeepsClient(st: State, step: Step, c: ClientId)
    requires Inv(st) && Enabled(st, step) && Careful(st, step)
    requires step.Connect? || step.LogFails? || step.Kill? || step.Check? || step.Unlink? || step.Bind? || step.Fail?
             || step.Crash? || step.Stop? || step.Foreground? || step.Sweep?
    ensures ClientSound(Apply(st, step), c)
  {
    InvClient(st, c);
    match step
    case Bind(s) => InvServer(st, s);
    case Unlink(s) => InvServer(st, s);
    case Check(s) => if Settled(st, c) { SettledStays(st, step, c); }
    case Crash(s) => if Settled(st, c) { SettledStays(st, step, c); }
    case Stop(s) => if Settled(st, c) { SettledStays(st, step, c); }
    case _ =>
  }

  lemma SpawnKeepsClient(st: State, d: ClientId, s: ServerId, c: ClientId)
    requires Inv(st) && Enabled(st, Spawn(d, s))
    ensures ClientSound(Apply(st, Spawn(d, s)), c)
  {
    InvClient(st, c);
    InvClient(st, d);
  }

  /** A client that has nothing more to wait for has nothing that may still come to listen. */
  lemma DoneKeepsClient(st: State, d: ClientId, c: ClientId)
    requires Inv(st) && st.Client(d).Waiting?
    requires st.socket.Live? || st.Client(d).child.None? || !st.Unbound(st.Client(d).child.value)
    ensures ClientSound(DoneWaiting(st, d), c)
  {
    InvClient(st, c);
    var st' := DoneWaiting(st, d);
    if c == d && st'.Client(c).Releasing? && !st.socket.Live? {
      var child := st.Client(d).child.value;
      assert OneEach(st);
      forall s | s in st.starter && st'.Unbound(s) ensures st.starter[s] != c {
      }
    }
  }

  lemma SettledStays(st: State, step: Step, c: ClientId)
    requires Enabled(st, step) && (step.Check? || step.Crash? || step.Stop?)
    requires Settled(st, c) && forall s {:trigger s in st.starter} :: s in st.starter ==> s in st.servers
    ensures Settled(Apply(st, step), c)
  {
  }

  lemma ServerKept(st: State, step: Step, s: ServerId)
    requires Inv(st) && Enabled(st, step) && Careful(st, step) && s in Apply(st, step).servers
    ensures ServerSound(Apply(st, step), s)
  {
    if s in st.servers {
      InvServer(st, s);
    }
    match step
    case Spawn(c, t) => InvClient(st, c);
    case SpawnFails(c) => ReleaseKeepsServer(st, c, s);
    case Release(c) => ReleaseKeepsServer(st, c, s);
    case Check(t) => InvServer(st, t);
    case Unlink(t) =>
      InvServer(st, t);
      if s != t && Held(st, s) { OneHeld(st, s, t); }
    case Bind(t) =>
      InvServer(st, t);
      if s != t && Held(st, s) { OneHeld(st, s, t); }
    case Crash(t) =>
      InvServer(st, t);
      assert st.Unbound(s) ==> Held(st, s);
    case Stop(t) =>
      InvServer(st, t);
      assert st.Unbound(s) ==> Held(st, s);
    case _ =>
  }

  /** With the lock file gone, nothing that was waited for may still come to listen. */
  lemma ReleaseKeepsServer(st: State, c: ClientId, s: ServerId)
    requires Inv(st) && s in st.servers && (st.Client(c).Won? || st.Client(c).Releasing?)
    ensures ServerSound(st.(lock := None), s)
  {
    InvClient(st, c);
    InvServer(st, s);
    if Held(st, s) && !st.socket.Live? {
      assert !st.Unbound(s);
    }
  }

  /** Of the steps that could break it, each keeps it exactly when it is careful. */
  lemma CarefulExactly(st: State, step: Step)
    requires Inv(st) && Enabled(st, step)
    ensures Inv(Apply(st, step)) <==> Careful(st, step)
  {
    if Careful(st, step) {
      StepKeeps(st, step);
    } else {
      CarelessBreaks(st, step);
    }
  }

  lemma CarelessBreaks(st: State, step: Step)
    requires Inv(st) && Enabled(st, step) && !Careful(st, step)
    ensures !Inv(Apply(st, step))
  {
    var st' := Apply(st, step);
    match step
    case TimeOut(c) =>
      InvClient(st, c);
      assert st'.Client(c).Releasing? && !Settled(st', c) by {
        var s := st.Client(c).child.value;
        assert st'.Unbound(s) && st'.starter[s] == c;
      }
    case Foreground(s) =>
      assert !ServerSound(st', s);
    case Crash(s) =>
      InvServer(st, s);
      UnheldBreaks(st, st', s);
    case Stop(s) =>
      InvServer(st, s);
      UnheldBreaks(st, st', s);
    case Sweep =>
      assert st.Is(st.socket.server, Serving);
      assert !ServerSound(st', st.socket.server);
    case _ =>
  }

  lemma UnheldBreaks(st: State, st': State, gone: ServerId)
    requires st.Is(gone, Serving) && !st'.socket.Live? && !AllHeld(st)
    requires st' == WithServer(st, gone, Gone).(socket := st'.socket)
    ensures !Inv(st')
  {
    if s :| s in st.servers && NotYetBound(st.servers[s]) && !Held(st, s) {
      assert st'.servers[s] == st.servers[s];
      assert !ServerSound(st', s);
    } else {
      var c :| st.Client(c).Releasing? && !Settled(st, c);
      var s :| s in st.starter && st.Unbound(s) && st.starter[s] == c;
      assert st'.Unbound(s) && st'.starter[s] == c;
      assert !Settled(st', c);
      assert st'.Client(c) == Releasing;
      assert !ClientSound(st', c);
    }
  }

  // --- Runs ------------------------------------------------------------------------------------

  ghost predicate IsRun(st: State, run: seq<Step>)
    decreases run
  {
    run != [] ==> Enabled(st, run[0]) && IsRun(Apply(st, run[0]), run[1..])
  }

  ghost function After(st: State, run: seq<Step>): State
    requires IsRun(st, run)
    decreases run
  {
    if run == [] then st else After(Apply(st, run[0]), run[1..])
  }

  ghost predicate CarefulRun(st: State, run: seq<Step>)
    requires IsRun(st, run)
    decreases run
  {
    run != [] ==> Careful(st, run[0]) && CarefulRun(Apply(st, run[0]), run[1..])
  }

  lemma {:induction false} RunKeeps(st: State, run: seq<Step>)
    requires Inv(st) && IsRun(st, run) && CarefulRun(st, run)
    ensures Inv(After(st, run))
    decreases run
  {
    if run != [] {
      StepKeeps(st, run[0]);
      RunKeeps(Apply(st, run[0]), run[1..]);
    }
  }

  /** A workspace nobody has used: at most a socket file left by a server that died. */
  ghost predicate Cold(st: State) {
    st.lock.None? && !st.socket.Live? && st.clients == map[] && st.servers == map[] && st.starter == map[]
  }

  /**
   However many clients race for a cold workspace, whatever fails or is killed, and however often the
   server is stopped or dies with none starting: never two servers at once, and never does one remove the
   socket of another that listens.
   */
  lemma OneServerListens(cold: State, run: seq<Step>)
    requires Cold(cold) && IsRun(cold, run) && CarefulRun(cold, run)
    ensures var st := After(cold, run);
            && (forall s, t :: st.Is(s, Serving) && st.Is(t, Serving) ==> s == t)
            && (forall s :: st.Is(s, Serving) ==> st.socket == Live(s))
            && (forall s :: Enabled(st, Unlink(s)) ==> !st.socket.Live?)
            && (forall s :: Enabled(st, Bind(s)) ==> Apply(st, Bind(s)).Is(s, Serving))
  {
    forall c ensures ClientSound(cold, c) {
      assert cold.Client(c).Asking?;
    }
    RunKeeps(cold, run);
    var st := After(cold, run);
    forall s | s in st.servers ensures ServerSound(st, s) {
      InvServer(st, s);
    }
  }

  /** How many servers bind the socket over a run. */
  ghost function Binds(st: State, run: seq<Step>): nat
    requires IsRun(st, run)
    decreases run
  {
    if run == [] then 0
    else (if run[0].Bind? && st.socket.Absent? then 1 else 0) + Binds(Apply(st, run[0]), run[1..])
  }

  /** Unless a server is lost, one binds at most once in all, and a workspace that has one gets no other. */
  lemma {:induction false} BindsOnce(st: State, run: seq<Step>)
    requires Inv(st) && IsRun(st, run) && CarefulRun(st, run)
    requires forall i :: 0 <= i < |run| ==> !run[i].Crash? && !run[i].Stop?
    ensures Binds(st, run) <= if st.socket.Live? then 0 else 1
    decreases run
  {
    if run != [] {
      var st' := Apply(st, run[0]);
      StepKeeps(st, run[0]);
      BindsOnce(st', run[1..]);
      match run[0]
      case Unlink(s) => InvServer(st, s);
      case _ =>
    }
  }

  // --- Who starts a server, and who serves -----------------------------------------------------

  /** While a server listens, what loses it is its stopping or dying, or its socket being removed. */
  predicate LosesServer(step: Step) {
    step.Stop? || step.Crash? || step.Sweep?
  }

  /** `c` has no part in starting a server. */
  ghost predicate StartsNone(st: State, c: ClientId) {
    st.lock != Some(c) && Childless(st, c) && (st.Client(c).Asking? || st.Client(c).Through?)
  }

  lemma BesideLive(st: State, step: Step, c: ClientId)
    requires Inv(st) && Enabled(st, step) && st.socket.Live? && !LosesServer(step) && StartsNone(st, c)
    ensures Inv(Apply(st, step)) && Apply(st, step).socket == st.socket && StartsNone(Apply(st, step), c)
  {
    StepKeeps(st, step);
    SocketStays(st, step);
    hide Inv;
  }

  lemma SocketStays(st: State, step: Step)
    requires Inv(st) && Enabled(st, step) && st.socket.Live? && !LosesServer(step)
    ensures Apply(st, step).socket == st.socket
  {
    match step
    case Unlink(s) => InvServer(st, s);
    case Bind(s) => InvServer(st, s);
    case _ =>
  }

  /**
   A client that comes while a server listens uses it: over every run in which that server is not lost, the client never
   makes the lock file and never starts a server, whatever clients before it are still at.
   */
  lemma {:induction false} LateClientStartsNone(st: State, run: seq<Step>, c: ClientId)
    requires Inv(st) && IsRun(st, run) && st.socket.Live? && st.Client(c).Asking?
    requires forall i :: 0 <= i < |run| ==> !LosesServer(run[i])
    ensures After(st, run).socket == st.socket && StartsNone(After(st, run), c)
  {
    hide Inv, StartsNone;
    NotAPart(st, c);
    BesideLiveThroughout(st, run, c);
  }

  lemma NotAPart(st: State, c: ClientId)
    requires Inv(st) && st.Client(c).Asking?
    ensures StartsNone(st, c)
  {
    InvClient(st, c);
    assert OwnerSound(st);
  }

  lemma {:induction false} BesideLiveThroughout(st: State, run: seq<Step>, c: ClientId)
    requires Inv(st) && IsRun(st, run) && st.socket.Live? && StartsNone(st, c)
    requires forall i :: 0 <= i < |run| ==> !LosesServer(run[i])
    ensures After(st, run).socket == st.socket && StartsNone(After(st, run), c)
    decreases run
  {
    hide Inv, StartsNone, Enabled, Apply;
    if run != [] {
      var rest := run[1..];
      assert !LosesServer(run[0]);
      assert forall i :: 0 <= i < |rest| ==> rest[i] == run[i + 1];
      BesideLive(st, run[0], c);
      BesideLiveThroughout(Apply(st, run[0]), rest, c);
    }
  }

  /** `step` is `c` seeing somebody listen. */
  predicate SeesServer(st: State, step: Step, c: ClientId) {
    st.socket.Live? && (step == Connect(c) || step == SeeListening(c))
  }

  /** `step` is `c` failing, giving up or being killed. */
  predicate Fails(step: Step, c: ClientId) {
    step == LogFails(c) || step == SpawnFails(c) || step == SeeExit(c) || step == TimeOut(c) || step == Kill(c)
  }

  /** A client is through, or about to be, only by one or the other. */
  lemma DoneBy(st: State, step: Step, c: ClientId)
    requires Enabled(st, step)
    requires !(st.Client(c).Through? || st.Client(c).Releasing?)
    requires Apply(st, step).Client(c).Through? || Apply(st, step).Client(c).Releasing?
    ensures SeesServer(st, step, c) || Fails(step, c)
  {
  }

  /** The state before the step at `i`. */
  ghost function StateAt(st: State, run: seq<Step>, i: nat): State
    requires IsRun(st, run) && i <= |run|
    decreases i
  {
    if i == 0 then st else StateAt(Apply(st, run[0]), run[1..], i - 1)
  }

  /**
   Over every run, whatever fails in it: a client that is through when it is over has seen somebody listen, or has
   failed, given up or been killed.
   */
  lemma {:induction false} ThroughBy(st: State, run: seq<Step>, c: ClientId) returns (i: nat)
    requires IsRun(st, run) && After(st, run).Client(c).Through?
    requires !(st.Client(c).Through? || st.Client(c).Releasing?)
    ensures i < |run| && (SeesServer(StateAt(st, run, i), run[i], c) || Fails(run[i], c))
    decreases run
  {
    hide Enabled, Apply;
    var next := Apply(st, run[0]);
    if next.Client(c).Through? || next.Client(c).Releasing? {
      i := 0;
      DoneBy(st, run[0], c);
    } else {
      i := ThroughBy(next, run[1..], c);
      i := i + 1;
    }
  }

  /** A server comes to serve only by binding a socket that is not there, and then listens at it. */
  lemma ServesByBinding(st: State, step: Step, s: ServerId)
    requires Enabled(st, step) && !st.Is(s, Serving) && Apply(st, step).Is(s, Serving)
    ensures step == Bind(s) && st.Is(s, Unlinked) && st.socket.Absent? && Apply(st, step).socket == Live(s)
  {
  }

  /**
   The socket file is removed by whoever makes way for itself, stops, or makes way for a replacement, and goes stale
   by a crash.
   */
  lemma SocketChanges(st: State, step: Step)
    requires Enabled(st, step)
    ensures !st.socket.Absent? && Apply(st, step).socket.Absent? <==>
              !st.socket.Absent? && (step.Unlink? || step.Stop? || step.Sweep?)
    ensures Apply(st, step).socket.Stale? <==>
              && (st.socket.Stale? || (step.Crash? && st.socket == Live(step.s)))
              && !step.Unlink? && !step.Stop? && !step.Sweep?
    ensures step.Stop? || step.Crash? || step.Fail? ==> Apply(st, step).Is(step.s, Gone)
    ensures forall s :: st.Is(s, Gone) ==> Apply(st, step).Is(s, Gone)
  {
  }

  /** A client is moved by its own steps alone, and a server by its own and by whoever starts it. */
  lemma OthersLeaveThem(st: State, step: Step)
    requires Enabled(st, step)
    ensures forall c {:trigger st.Client(c)} :: Apply(st, step).Client(c) != st.Client(c) ==> IsOf(step, c)
    ensures forall s {:trigger st.servers[s]} :: s in st.servers ==>
              s in Apply(st, step).servers && (Apply(st, step).servers[s] != st.servers[s] ==> IsServers(step, s))
  {
  }

  predicate IsOf(step: Step, c: ClientId) {
    match step
    case Connect(d) => d == c
    case TryLock(d) => d == c
    case LogFails(d) => d == c
    case Spawn(d, _) => d == c
    case SpawnFails(d) => d == c
    case SeeListening(d) => d == c
    case SeeExit(d) => d == c
    case TimeOut(d) => d == c
    case Release(d) => d == c
    case Kill(d) => d == c
    case _ => false
  }

  predicate IsServers(step: Step, s: ServerId) {
    step == Check(s) || step == Unlink(s) || step == Bind(s) || step == Fail(s) || step == Crash(s) || step == Stop(s)
  }

  // --- Nobody is shut out ----------------------------------------------------------------------

  /** `c` can come to have seen somebody listen. */
  ghost predicate CanBeServed(st: State, c: ClientId) {
    exists run :: IsRun(st, run) && run != []
                  && SeesServer(StateAt(st, run, |run| - 1), run[|run| - 1], c) && After(st, run).socket.Live?
  }

  lemma ServedLater(st: State, step: Step, c: ClientId)
    requires Enabled(st, step) && CanBeServed(Apply(st, step), c)
    ensures CanBeServed(st, c)
  {
    hide Enabled, Apply;
    var next := Apply(st, step);
    var rest :| IsRun(next, rest) && rest != []
                && SeesServer(StateAt(next, rest, |rest| - 1), rest[|rest| - 1], c) && After(next, rest).socket.Live?;
    var run := [step] + rest;
    assert run[1..] == rest && run[|run| - 1] == rest[|rest| - 1];
    assert IsRun(st, run) && After(st, run) == After(next, rest);
    assert StateAt(st, run, |run| - 1) == StateAt(next, rest, |rest| - 1);
  }

  lemma ServedNow(st: State, step: Step, c: ClientId)
    requires Enabled(st, step) && SeesServer(st, step, c)
    ensures CanBeServed(st, c)
  {
    var run := [step];
    hide Enabled, Apply;
    var next, rest := Apply(st, step), run[1..];
    assert rest == [];
    assert IsRun(next, rest) && After(next, rest) == next;
    assert IsRun(st, run) && After(st, run) == After(next, rest);
    StateAtFirst(st, run, |run| - 1);
    assert Apply(st, step).socket.Live? by {
      SeeingLeavesIt(st, step, c);
    }
  }

  lemma StateAtFirst(st: State, run: seq<Step>, i: nat)
    requires IsRun(st, run) && i == 0
    ensures StateAt(st, run, i) == st
  {
  }

  lemma SeeingLeavesIt(st: State, step: Step, c: ClientId)
    requires Enabled(st, step) && SeesServer(st, step, c)
    ensures Apply(st, step).socket == st.socket
  {
  }

  /** A server that is started gets to listen when nobody does yet, and whoever waits for it sees it. */
  lemma {:induction false} StartedServes(st: State, c: ClientId, s: ServerId)
    requires st.Client(c) == Waiting(Some(s)) && OnItsWay(st, s) && !st.Is(s, Serving)
    ensures CanBeServed(st, c)
    decreases ToGo(st.servers[s])
  {
    match st.servers[s]
    case Booting =>
      StartedServes(Apply(st, Check(s)), c, s);
      ServedLater(st, Check(s), c);
    case Checked =>
      StartedServes(Apply(st, Unlink(s)), c, s);
      ServedLater(st, Unlink(s), c);
    case Unlinked =>
      ServedNow(Apply(st, Bind(s)), SeeListening(c), c);
      ServedLater(st, Bind(s), c);
  }

  /** With nobody listening and no lock file, whoever asks makes it, starts a server and sees it listen. */
  lemma FreeServes(st: State, c: ClientId)
    requires st.lock.None? && !st.socket.Live? && st.Client(c).Asking?
    ensures CanBeServed(st, c)
  {
    var racing := Apply(st, Connect(c));
    var won := Apply(racing, TryLock(c));
    var s := AboveAll(won.servers.Keys);
    StartedServes(Apply(won, Spawn(c, s)), c, s);
    ServedLater(won, Spawn(c, s), c);
    ServedLater(racing, TryLock(c), c);
    ServedLater(st, Connect(c), c);
  }

  /**
   Whatever the others are at, a client that asks can come to see a server listen -- unless the lock file is stuck.
   */
  lemma AskingCanBeServed(st: State, c: ClientId)
    requires Inv(st) && st.Client(c).Asking? && !LockStuck(st)
    ensures CanBeServed(st, c)
  {
    assert OwnerSound(st);
    if st.socket.Live? {
      ServedNow(st, Connect(c), c);
    } else if st.lock.None? {
      FreeServes(st, c);
    } else {
      var d := st.lock.value;
      match st.Client(d)
      case Won =>
        FreeServes(Apply(st, SpawnFails(d)), c);
        ServedLater(st, SpawnFails(d), c);
      case Releasing => ReleasedServes(st, d, c);
      case Waiting(_) =>
        ReleasedServes(Apply(st, TimeOut(d)), d, c);
        ServedLater(st, TimeOut(d), c);
    }
  }

  lemma ReleasedServes(st: State, d: ClientId, c: ClientId)
    requires st.Client(d).Releasing? && !st.socket.Live? && st.Client(c).Asking?
    ensures CanBeServed(st, c)
  {
    FreeServes(Apply(st, Release(d)), c);
    ServedLater(st, Release(d), c);
  }

  // --- What goes wrong otherwise ---------------------------------------------------------------

  /** Who made the lock file is through and did not remove it. */
  ghost predicate LockStuck(st: State) {
    st.lock.Some? && st.Client(st.lock.value).Through?
  }

  predicate Alive(st: State, s: ServerId) {
    s in st.servers && !st.servers[s].Gone?
  }

  ghost predicate TwoAlive(st: State) {
    exists s, t :: s != t && Alive(st, s) && Alive(st, t)
  }

  ghost predicate TwoServe(st: State) {
    exists s, t :: s != t && st.Is(s, Serving) && st.Is(t, Serving)
  }

  /** Careful steps alone lead on to two servers at once. */
  ghost predicate CanCollide(st: State) {
    exists run :: IsRun(st, run) && CarefulRun(st, run) && TwoServe(After(st, run))
  }

  lemma Collides(st: State, s: ServerId, t: ServerId)
    requires s != t && st.Is(s, Serving) && st.Is(t, Serving)
    ensures CanCollide(st)
  {
    assert IsRun(st, []) && CarefulRun(st, []) && After(st, []) == st;
  }

  lemma LeadsOn(st: State, step: Step)
    requires Enabled(st, step) && Careful(st, step) && CanCollide(Apply(st, step))
    ensures CanCollide(st)
  {
    var rest :| IsRun(Apply(st, step), rest) && CarefulRun(Apply(st, step), rest)
        && TwoServe(After(Apply(st, step), rest));
    var run := [step] + rest;
    assert run[1..] == rest;
    assert IsRun(st, run) && CarefulRun(st, run) && After(st, run) == After(Apply(st, step), rest);
  }

  /** `s` is alive with nobody listening at the socket, and has removed the socket file if it says so. */
  predicate OnItsWay(st: State, s: ServerId) {
    Alive(st, s) && !st.socket.Live? && (st.servers[s].Unlinked? ==> st.socket.Absent?)
  }

  function ToGo(server: Server): nat {
    match server
    case Booting => 3
    case Checked => 2
    case Unlinked => 1
    case Serving => 0
    case Gone => 0
  }

  /** One server serving without its socket, and another on its way. */
  lemma {:induction false} OneMoreServes(st: State, s: ServerId, t: ServerId)
    requires st.Is(s, Serving) && OnItsWay(st, t) && s != t
    ensures CanCollide(st)
    decreases ToGo(st.servers[t])
  {
    match st.servers[t]
    case Booting =>
      OneMoreServes(Apply(st, Check(t)), s, t);
      LeadsOn(st, Check(t));
    case Checked =>
      OneMoreServes(Apply(st, Unlink(t)), s, t);
      LeadsOn(st, Unlink(t));
    case Unlinked =>
      Collides(Apply(st, Bind(t)), s, t);
      LeadsOn(st, Bind(t));
    case Serving =>
      Collides(st, s, t);
  }

  /**
   One server has removed the socket file and another is about to: each binds, the second after removing the
   first's.
   */
  lemma BothBind(st: State, s: ServerId, t: ServerId)
    requires s != t && st.Is(s, Unlinked) && st.Is(t, Checked) && st.socket.Absent?
    ensures CanCollide(st)
  {
    var bound := Apply(st, Bind(s));
    OneMoreServes(Apply(bound, Unlink(t)), s, t);
    LeadsOn(bound, Unlink(t));
    LeadsOn(st, Bind(s));
  }

  /** Two servers on their way both come to serve, unless both have removed the socket file. */
  lemma {:induction false} BothServe(st: State, s: ServerId, t: ServerId)
    requires s != t && OnItsWay(st, s) && OnItsWay(st, t)
    requires !(st.Is(s, Unlinked) && st.Is(t, Unlinked))
    ensures CanCollide(st)
    decreases ToGo(st.servers[s]) + ToGo(st.servers[t])
  {
    if st.Is(s, Serving) {
      OneMoreServes(st, s, t);
    } else if st.Is(t, Serving) {
      OneMoreServes(st, t, s);
    } else if st.Is(s, Booting) {
      BothServe(Apply(st, Check(s)), s, t);
      LeadsOn(st, Check(s));
    } else if st.Is(t, Booting) {
      BothServe(Apply(st, Check(t)), s, t);
      LeadsOn(st, Check(t));
    } else if st.Is(s, Unlinked) {
      BothBind(st, s, t);
    } else if st.Is(t, Unlinked) {
      BothBind(st, t, s);
    } else {
      BothBind(Apply(st, Unlink(s)), s, t);
      LeadsOn(st, Unlink(s));
    }
  }

  lemma {:induction false} AboveAll(used: set<nat>) returns (n: nat)
    ensures forall m :: m in used ==> m < n
    decreases used
  {
    if used == {} {
      n := 0;
    } else {
      var one :| one in used;
      var rest := AboveAll(used - {one});
      n := if one < rest then rest else one + 1;
      forall m | m in used ensures m < n {
        assert m == one || m in used - {one};
      }
    }
  }

  /** A client with the lock file it made starts another server. */
  lemma WonStartsAnother(st: State, c: ClientId, s: ServerId)
    requires st.Client(c).Won? && OnItsWay(st, s)
    ensures CanCollide(st)
  {
    var t := AboveAll(st.servers.Keys);
    BothServe(Apply(st, Spawn(c, t)), s, t);
    LeadsOn(st, Spawn(c, t));
  }

  /** With no lock file, a client nobody has heard of yet starts another server. */
  lemma FreeStartsAnother(st: State, s: ServerId)
    requires st.lock.None? && OnItsWay(st, s)
    ensures CanCollide(st)
  {
    var d := AboveAll(st.clients.Keys);
    assert st.Client(d).Asking?;
    var racing := Apply(st, Connect(d));
    WonStartsAnother(Apply(racing, TryLock(d)), d, s);
    LeadsOn(racing, TryLock(d));
    LeadsOn(st, Connect(d));
  }

  lemma ReleasedStartsAnother(st: State, c: ClientId, s: ServerId)
    requires st.Client(c).Releasing? && OnItsWay(st, s)
    ensures CanCollide(st)
  {
    FreeStartsAnother(Apply(st, Release(c)), s);
    LeadsOn(st, Release(c));
  }

  /**
   Unless the lock file is stuck, it comes to be free beside a server that is on its way and that its maker does not
   wait for, and another server is started.
   */
  lemma AnotherStarts(st: State, s: ServerId)
    requires OwnerSound(st) && !LockStuck(st) && OnItsWay(st, s)
    requires st.lock.Some? && st.Client(st.lock.value).Waiting? ==>
               var w := st.Client(st.lock.value).child.value; w in st.servers && !st.Unbound(w)
    ensures CanCollide(st)
  {
    if st.lock.None? {
      FreeStartsAnother(st, s);
    } else {
      var c := st.lock.value;
      match st.Client(c)
      case Won => WonStartsAnother(st, c, s);
      case Releasing => ReleasedStartsAnother(st, c, s);
      case Waiting(child) =>
        ReleasedStartsAnother(Apply(st, TimeOut(c)), c, s);
        LeadsOn(st, TimeOut(c));
    }
  }

  // --- The careless steps ----------------------------------------------------------------------

  /**
   After a careless step nobody listens, what is alive is on its way, and no two have both removed the socket file.
   */
  lemma AfterCareless(st: State, step: Step)
    requires Inv(st) && Enabled(st, step) && !Careful(st, step)
    ensures OwnerSound(Apply(st, step))
    ensures exists s :: OnItsWay(Apply(st, step), s)
    ensures forall s :: Alive(Apply(st, step), s) ==> OnItsWay(Apply(st, step), s)
    ensures forall s, t :: Apply(st, step).Is(s, Unlinked) && Apply(st, step).Is(t, Unlinked) ==> s == t
  {
    var st' := Apply(st, step);
    OwnerKept(st, step);
    forall s | Alive(st', s) ensures OnItsWay(st', s) {
      if s in st.servers { InvServer(st, s); }
      AliveOnItsWay(st, step, s);
    }
    forall s, t | st'.Is(s, Unlinked) && st'.Is(t, Unlinked) ensures s == t {
      InvServer(st, s);
      InvServer(st, t);
      OneHeld(st, s, t);
    }
    var s := SomeAlive(st, step);
    assert OnItsWay(st', s);
  }

  lemma AliveOnItsWay(st: State, step: Step, s: ServerId)
    requires Inv(st) && Enabled(st, step) && !Careful(st, step) && Alive(Apply(st, step), s)
    ensures OnItsWay(Apply(st, step), s)
  {
    if s in st.servers { InvServer(st, s); }
    match step
    case Crash(t) => InvServer(st, t);
    case Stop(t) => InvServer(st, t);
    case _ =>
  }

  lemma SomeAlive(st: State, step: Step) returns (s: ServerId)
    requires Inv(st) && Enabled(st, step) && !Careful(st, step)
    ensures Alive(Apply(st, step), s)
  {
    match step
    case TimeOut(c) => s := st.Client(c).child.value;
    case Foreground(t) => s := t;
    case Sweep =>
      s := st.socket.server;
      assert st.Is(s, Serving);
    case Crash(t) =>
      s := SomeUnheld(st);
      assert s != t;
    case Stop(t) =>
      s := SomeUnheld(st);
      assert s != t;
  }

  lemma SomeUnheld(st: State) returns (s: ServerId)
    requires !AllHeld(st)
    ensures st.Unbound(s)
  {
    if u :| u in st.servers && NotYetBound(st.servers[u]) && !Held(st, u) {
      s := u;
    } else {
      var c :| st.Client(c).Releasing? && !Settled(st, c);
      s :| s in st.starter && st.Unbound(s) && st.starter[s] == c;
    }
  }

  /** A careless step leaves no server that the maker of the lock file waits for as the only one on its way. */
  lemma OnlyOneIsNotAwaited(st: State, step: Step)
    requires Inv(st) && Enabled(st, step) && !Careful(st, step) && !TwoAlive(Apply(st, step))
    requires st.lock.Some? && Apply(st, step).Client(st.lock.value).Waiting?
    ensures var w := Apply(st, step).Client(st.lock.value).child;
        w.Some? && w.value in st.servers && !Apply(st, step).Unbound(w.value)
  {
    var c := st.lock.value;
    var st' := Apply(st, step);
    InvClient(st, c);
    assert OwnerSound(st) && st'.Client(c) == st.Client(c);
    var w := st.Client(c).child.value;
    if st'.Unbound(w) {
      var s := SomeAlive(st, step);
      assert Alive(st', w) && Alive(st', s);
      assert s == w;
      match step
      case Foreground(t) => assert Alive(st', t);
      case Sweep =>
        assert st.Is(st.socket.server, Serving);
        assert Alive(st', st.socket.server);
      case Crash(t) =>
        assert forall u :: u != t && Alive(st, u) ==> Alive(st', u);
        OnlyAwaitedIsHeld(st, t, w);
      case Stop(t) =>
        assert forall u :: u != t && Alive(st, u) ==> Alive(st', u);
        OnlyAwaitedIsHeld(st, t, w);
      case TimeOut(d) => InvClient(st, d);
    }
  }

  lemma OnlyAwaitedIsHeld(st: State, gone: ServerId, w: ServerId)
    requires Inv(st) && st.lock.Some? && st.Client(st.lock.value) == Waiting(Some(w)) && st.Is(gone, Serving)
    requires st.Unbound(w) && forall s :: s != gone && Alive(st, s) ==> s == w
    ensures AllHeld(st)
  {
    InvClient(st, st.lock.value);
    forall s {:trigger st.servers[s]} | s in st.servers && NotYetBound(st.servers[s]) ensures Held(st, s) {
      assert Alive(st, s);
    }
    forall c {:trigger st.Client(c)} | st.Client(c).Releasing? ensures Settled(st, c) {
      InvClient(st, c);
    }
  }

  /** A careless step that leaves the lock file to be had, or two servers alive, can be followed by two at once. */
  lemma CarelessCollides(st: State, step: Step)
    requires Inv(st) && Enabled(st, step) && !Careful(st, step)
    requires !LockStuck(st) || TwoAlive(Apply(st, step))
    ensures CanCollide(Apply(st, step))
  {
    var st' := Apply(st, step);
    AfterCareless(st, step);
    if TwoAlive(st') {
      var s, t :| s != t && Alive(st', s) && Alive(st', t);
      BothServe(st', s, t);
    } else {
      var s :| OnItsWay(st', s);
      assert st'.lock == st.lock;
      if st'.lock.Some? && st'.Client(st'.lock.value).Waiting? {
        OnlyOneIsNotAwaited(st, step);
      }
      AnotherStarts(st', s);
    }
  }

  /** The lock file is there for good: nobody has it to remove. */
  ghost predicate Stuck(st: State, c: ClientId) {
    && st.lock == Some(c)
    && forall d {:trigger st.Client(d)} ::
         !st.Client(d).Won? && !st.Client(d).Releasing? && (st.Client(d).Waiting? ==> st.Client(d).child.None?)
  }

  lemma StuckForAll(st: State)
    requires Inv(st) && LockStuck(st)
    ensures Stuck(st, st.lock.value)
  {
    forall d ensures !st.Client(d).Won? && !st.Client(d).Releasing?
        && (st.Client(d).Waiting? ==> st.Client(d).child.None?) {
      InvClient(st, d);
    }
  }

  lemma StuckStays(st: State, c: ClientId, step: Step)
    requires Stuck(st, c) && Enabled(st, step)
    ensures Stuck(Apply(st, step), c)
  {
    var st' := Apply(st, step);
    forall d ensures !st'.Client(d).Won? && !st'.Client(d).Releasing?
        && (st'.Client(d).Waiting? ==> st'.Client(d).child.None?) {
      var _ := st.Client(d);
    }
  }

  /**
   With the lock file stuck, one server at most is alive, or all others that are have yet to find the one that
   listens.
   */
  ghost predicate OneAtMost(st: State) {
    && (st.socket.Live? ==> st.Is(st.socket.server, Serving))
    && forall s, t :: s != t && Alive(st, s) && Alive(st, t) ==>
         st.socket.Live? && (st.socket == Live(s) || st.Is(s, Booting)) && (st.socket == Live(t) || st.Is(t, Booting))
  }

  lemma OneAtMostKept(st: State, c: ClientId, step: Step)
    requires Stuck(st, c) && OneAtMost(st) && OneEach(st) && Enabled(st, step) && Careful(st, step)
    ensures OneAtMost(Apply(st, step)) && OneEach(Apply(st, step))
  {
    var st' := Apply(st, step);
    assert !step.Spawn?;
    forall s, t | s != t && Alive(st', s) && Alive(st', t)
      ensures st'.socket.Live? && (st'.socket == Live(s) || st'.Is(s, Booting))
          && (st'.socket == Live(t) || st'.Is(t, Booting))
    {
      TwoAreBooting(st, step, s, t);
    }
    OneAtMostLive(st, step);
  }

  lemma OneAtMostLive(st: State, step: Step)
    requires OneAtMost(st) && Enabled(st, step)
    ensures Apply(st, step).socket.Live? ==> Apply(st, step).Is(Apply(st, step).socket.server, Serving)
  {
  }

  lemma TwoAreBooting(st: State, step: Step, s: ServerId, t: ServerId)
    requires OneAtMost(st) && OneEach(st) && Enabled(st, step) && Careful(st, step) && !step.Spawn?
    requires s != t && Alive(Apply(st, step), s) && Alive(Apply(st, step), t)
    ensures var st' := Apply(st, step);
            st'.socket.Live? && (st'.socket == Live(s) || st'.Is(s, Booting))
                && (st'.socket == Live(t) || st'.Is(t, Booting))
  {
    if step.Foreground? {
      assert Alive(st, st.socket.server);
    } else {
      assert Alive(st, s) && Alive(st, t);
      match step
      case Crash(u) =>
        assert Alive(st, u);
        OneHeld(st, s, t);
      case Stop(u) =>
        assert Alive(st, u);
        OneHeld(st, s, t);
      case Unlink(u) => assert Alive(st, u);
      case Bind(u) => assert Alive(st, u);
      case _ =>
    }
  }

  lemma {:induction false} StuckNeverCollides(st: State, c: ClientId, run: seq<Step>)
    requires Stuck(st, c) && OneAtMost(st) && OneEach(st) && IsRun(st, run) && CarefulRun(st, run)
    ensures !TwoServe(After(st, run))
    decreases run
  {
    if run == [] {
      forall s, t | st.Is(s, Serving) && st.Is(t, Serving) ensures s == t {
        assert Alive(st, s) && Alive(st, t);
      }
    } else {
      StuckStays(st, c, run[0]);
      OneAtMostKept(st, c, run[0]);
      StuckNeverCollides(Apply(st, run[0]), c, run[1..]);
    }
  }

  /**
   A step can be followed, by careful ones alone, by two servers at once exactly when it is careless and the lock file
   is not stuck, or two servers are alive after it already.
   */
  lemma CollidesExactly(st: State, step: Step)
    requires Inv(st) && Enabled(st, step)
    ensures CanCollide(Apply(st, step))
            <==> !Careful(st, step) && (!LockStuck(st) || TwoAlive(Apply(st, step)))
  {
    var st' := Apply(st, step);
    if Careful(st, step) {
      StepKeeps(st, step);
      forall run | IsRun(st', run) && CarefulRun(st', run) ensures !TwoServe(After(st', run)) {
        RunKeeps(st', run);
        OneServes(After(st', run));
      }
    } else if !LockStuck(st) || TwoAlive(st') {
      CarelessCollides(st, step);
    } else {
      StuckForAll(st);
      StuckStays(st, st.lock.value, step);
      AfterCareless(st, step);
      OneEachKept(st, step);
      forall run | IsRun(st', run) && CarefulRun(st', run) ensures !TwoServe(After(st', run)) {
        StuckNeverCollides(st', st.lock.value, run);
      }
    }
  }

  lemma OneServes(st: State)
    requires Inv(st)
    ensures !TwoServe(st)
  {
    forall s, t | st.Is(s, Serving) && st.Is(t, Serving) ensures s == t {
      InvServer(st, s);
      InvServer(st, t);
    }
  }

  /**
   Giving up on a server that has not listened yet is never safe: the client that does so has the lock file to remove,
   the next client starts a second server, and both come to serve.
   */
  lemma TimeOutLetsTwoServe(st: State, c: ClientId)
    requires Inv(st) && Enabled(st, TimeOut(c)) && !Careful(st, TimeOut(c))
    ensures CanCollide(Apply(st, TimeOut(c)))
  {
    InvClient(st, c);
    CarelessCollides(st, TimeOut(c));
  }

  // --- A lock file left behind -----------------------------------------------------------------

  lemma {:induction false} StuckForGood(st: State, c: ClientId, run: seq<Step>)
    requires Stuck(st, c) && IsRun(st, run)
    ensures Stuck(After(st, run), c)
    ensures (forall i :: 0 <= i < |run| ==> !run[i].Foreground?) ==> After(st, run).servers.Keys == st.servers.Keys
    decreases run
  {
    if run != [] {
      var st' := Apply(st, run[0]);
      StuckStays(st, c, run[0]);
      StuckForGood(st', c, run[1..]);
      if forall i :: 0 <= i < |run| ==> !run[i].Foreground? {
        assert forall i :: 0 <= i < |run[1..]| ==> run[1..][i] == run[i + 1];
        assert !run[0].Spawn? && !run[0].Foreground?;
        assert st'.servers.Keys == st.servers.Keys;
      }
    }
  }

  lemma Frees(st: State, c: ClientId) returns (run: seq<Step>)
    requires OwnerSound(st) && st.lock == Some(c) && !LockStuck(st)
    ensures IsRun(st, run) && After(st, run).lock.None?
  {
    match st.Client(c)
    case Won => run := [SpawnFails(c)];
    case Releasing => run := [Release(c)];
    case Waiting(_) =>
      run := [TimeOut(c), Release(c)];
      assert IsRun(Apply(st, TimeOut(c)), [Release(c)]) && run[1..] == [Release(c)];
      assert After(Apply(st, TimeOut(c)), [Release(c)]).lock.None?;
  }

  /** The lock file is never removed, whatever happens, exactly when the client that made it is through. */
  lemma StuckExactly(st: State)
    requires Inv(st) && st.lock.Some?
    ensures LockStuck(st) <==> forall run :: IsRun(st, run) ==> After(st, run).lock == st.lock
  {
    var c := st.lock.value;
    if LockStuck(st) {
      StuckForAll(st);
      forall run | IsRun(st, run) ensures After(st, run).lock == st.lock {
        StuckForGood(st, c, run);
      }
    } else {
      var run := Frees(st, c);
      assert After(st, run).lock != st.lock;
    }
  }

  /** It comes to be so exactly when its maker cannot open the server's log, or is killed. */
  lemma SticksExactly(st: State, step: Step)
    requires Inv(st) && Enabled(st, step) && !LockStuck(st)
    ensures LockStuck(Apply(st, step)) <==> (step.LogFails? || step.Kill?) && st.lock == Some(step.c)
  {
    assert OwnerSound(st);
    match step
    case LogFails(c) => InvClient(st, c);
    case _ =>
  }

  /** From then on no client of the workspace ever starts a server. */
  lemma StuckStartsNone(st: State, run: seq<Step>)
    requires Inv(st) && LockStuck(st) && IsRun(st, run)
    ensures After(st, run).lock == st.lock
    ensures forall c, s :: !Enabled(After(st, run), Spawn(c, s))
    ensures (forall i :: 0 <= i < |run| ==> !run[i].Foreground?) ==> After(st, run).servers.Keys == st.servers.Keys
  {
    StuckForAll(st);
    StuckForGood(st, st.lock.value, run);
    var st' := After(st, run);
    forall c, s ensures !Enabled(st', Spawn(c, s)) {
      assert !st'.Client(c).Won?;
    }
  }

  /** So it is once a client has won the race and cannot open the server's log. */
  lemma LogFailureIsForGood(st: State, c: ClientId, run: seq<Step>)
    requires Inv(st) && Enabled(st, LogFails(c)) && IsRun(Apply(st, LogFails(c)), run)
    ensures var st' := After(Apply(st, LogFails(c)), run);
            && st'.lock == Some(c)
            && (forall d, s :: !Enabled(st', Spawn(d, s)))
            && ((forall i :: 0 <= i < |run| ==> !run[i].Foreground?) ==> st'.servers.Keys == st.servers.Keys)
  {
    InvClient(st, c);
    StepKeeps(st, LogFails(c));
    StuckStartsNone(Apply(st, LogFails(c)), run);
  }

  // --- From a cold workspace -------------------------------------------------------------------

  /** Careful steps lead here from a workspace nobody has used. */
  ghost predicate Reached(st: State) {
    exists cold, run :: Cold(cold) && IsRun(cold, run) && CarefulRun(cold, run) && After(cold, run) == st
  }

  lemma {:induction false} RunGrows(st: State, run: seq<Step>, step: Step)
    requires IsRun(st, run) && CarefulRun(st, run) && Enabled(After(st, run), step) && Careful(After(st, run), step)
    ensures IsRun(st, run + [step]) && CarefulRun(st, run + [step])
        && After(st, run + [step]) == Apply(After(st, run), step)
    decreases run
  {
    if run == [] {
      assert run + [step] == [step] && [step][1..] == [];
    } else {
      assert (run + [step])[1..] == run[1..] + [step];
      RunGrows(Apply(st, run[0]), run[1..], step);
    }
  }

  lemma ReachNext(st: State, step: Step, next: State)
    requires Reached(st) && Enabled(st, step) && Careful(st, step) && Apply(st, step) == next
    ensures Reached(next)
  {
    var cold, run :| Cold(cold) && IsRun(cold, run) && CarefulRun(cold, run) && After(cold, run) == st;
    RunGrows(cold, run, step);
  }

  lemma ReachedIsSound(st: State)
    requires Reached(st)
    ensures Inv(st)
  {
    var cold, run :| Cold(cold) && IsRun(cold, run) && CarefulRun(cold, run) && After(cold, run) == st;
    forall c ensures ClientSound(cold, c) {
      assert cold.Client(c).Asking?;
    }
    RunKeeps(cold, run);
  }

  /**
   Two clients that find nobody listening, and the servers they start: the first by client 0, the second by client
   1.
   */
  ghost function Scene(lock: Option<ClientId>, socket: Socket, zero: Client, one: Client, servers: seq<Server>): State {
    var running := map s: ServerId | 0 <= s < |servers| :: servers[s];
    State(lock, socket, map[0 := zero, 1 := one], running, map s | s in running :: s)
  }

  lemma SceneServer(lock: Option<ClientId>, socket: Socket, zero: Client, one: Client, servers: seq<Server>, s: nat,
      server: Server)
    requires s < |servers|
    ensures WithServer(Scene(lock, socket, zero, one, servers), s, server)
        == Scene(lock, socket, zero, one, servers[s := server])
  {
    var was, now := Scene(lock, socket, zero, one, servers), Scene(lock, socket, zero, one, servers[s := server]);
    assert was.servers[s := server] == now.servers;
    assert was.starter == now.starter;
  }

  lemma SceneSpawns(lock: Option<ClientId>, socket: Socket, zero: Client, one: Client, servers: seq<Server>)
    ensures var was, now := Scene(lock, socket, zero, one, servers),
        Scene(lock, socket, zero, one, servers + [Booting]);
            was.servers[|servers| := Booting] == now.servers && was.starter[|servers| := |servers|] == now.starter
  {
  }

  lemma BothRace()
    ensures Reached(Scene(None, Absent, Racing, Racing, []))
  {
    var cold := State(None, Absent, map[], map[], map[]);
    assert IsRun(cold, []) && CarefulRun(cold, []) && After(cold, []) == cold;
    ReachNext(cold, Connect(0), Apply(cold, Connect(0)));
    ReachNext(Apply(cold, Connect(0)), Connect(1), Scene(None, Absent, Racing, Racing, []));
  }

  lemma OneWins()
    ensures Reached(Scene(Some(0), Absent, Won, Racing, []))
  {
    BothRace();
    ReachNext(
      Scene(None, Absent, Racing, Racing, []), TryLock(0), Scene(Some(0), Absent, Won, Racing, []));
  }

  lemma OneStarts()
    ensures Reached(Scene(Some(0), Absent, Waiting(Some(0)), Racing, [Booting]))
  {
    hide Reached;
    OneWins();
    var won, started := Scene(Some(0), Absent, Won, Racing, []),
        Scene(Some(0), Absent, Waiting(Some(0)), Racing, [Booting]);
    SceneSpawns(Some(0), Absent, Won, Racing, []);
    assert [] + [Booting] == [Booting];
    ReachNext(won, Spawn(0, 0), started);
  }

  lemma OneChecks()
    ensures Reached(Scene(Some(0), Absent, Waiting(Some(0)), Racing, [Checked]))
  {
    hide Reached;
    OneStarts();
    SceneServer(Some(0), Absent, Waiting(Some(0)), Racing, [Booting], 0, Checked);
    assert [Booting][0 := Checked] == [Checked];
    ReachNext(
      Scene(Some(0), Absent, Waiting(Some(0)), Racing, [Booting]), Check(0),
      Scene(Some(0), Absent, Waiting(Some(0)), Racing, [Checked]));
  }

  lemma OneRemoves()
    ensures Reached(Scene(Some(0), Absent, Waiting(Some(0)), Racing, [Unlinked]))
  {
    hide Reached;
    OneChecks();
    SceneServer(Some(0), Absent, Waiting(Some(0)), Racing, [Checked], 0, Unlinked);
    assert [Checked][0 := Unlinked] == [Unlinked];
    ReachNext(
      Scene(Some(0), Absent, Waiting(Some(0)), Racing, [Checked]), Unlink(0),
      Scene(Some(0), Absent, Waiting(Some(0)), Racing, [Unlinked]));
  }

  lemma OneBinds()
    ensures Reached(Scene(Some(0), Live(0), Waiting(Some(0)), Racing, [Serving]))
  {
    hide Reached;
    OneRemoves();
    SceneServer(Some(0), Absent, Waiting(Some(0)), Racing, [Unlinked], 0, Serving);
    assert [Unlinked][0 := Serving] == [Serving];
    ReachNext(
      Scene(Some(0), Absent, Waiting(Some(0)), Racing, [Unlinked]), Bind(0),
      Scene(Some(0), Live(0), Waiting(Some(0)), Racing, [Serving]));
  }

  lemma OneListens()
    ensures Reached(Scene(None, Live(0), Through, Racing, [Serving]))
  {
    hide Reached;
    OneBinds();
    var waiting := Scene(Some(0), Live(0), Waiting(Some(0)), Racing, [Serving]);
    var releasing := Scene(Some(0), Live(0), Releasing, Racing, [Serving]);
    ReachNext(waiting, SeeListening(0), releasing);
    ReachNext(releasing, Release(0), Scene(None, Live(0), Through, Racing, [Serving]));
  }

  lemma AnotherWins()
    ensures Reached(Scene(Some(1), Live(0), Through, Won, [Serving]))
  {
    hide Reached;
    OneListens();
    ReachNext(
      Scene(None, Live(0), Through, Racing, [Serving]), TryLock(1), Scene(Some(1), Live(0), Through, Won, [Serving]));
  }

  lemma AnotherSpawns()
    ensures Reached(Scene(Some(1), Live(0), Through, Waiting(Some(1)), [Serving, Booting]))
  {
    hide Reached;
    AnotherWins();
    SceneSpawns(Some(1), Live(0), Through, Won, [Serving]);
    assert [Serving] + [Booting] == [Serving, Booting];
    ReachNext(
      Scene(Some(1), Live(0), Through, Won, [Serving]), Spawn(1, 1),
      Scene(Some(1), Live(0), Through, Waiting(Some(1)), [Serving, Booting]));
  }

  /**
   The second client, late, starts another server, and is about to let the lock go for having seen the first one
   listen.
   */
  lemma AnotherBoots()
    ensures Reached(Scene(Some(1), Live(0), Through, Releasing, [Serving, Booting]))
  {
    hide Reached;
    AnotherSpawns();
    ReachNext(
      Scene(Some(1), Live(0), Through, Waiting(Some(1)), [Serving, Booting]), SeeListening(1),
      Scene(Some(1), Live(0), Through, Releasing, [Serving, Booting]));
  }

  /**
   One careless step of each kind, in a state that careful ones reach, after which careful ones lead to two at once.
   */
  ghost predicate OneStepCollides(st: State, step: Step) {
    Reached(st) && Enabled(st, step) && CanCollide(Apply(st, step))
  }

  lemma TimeOutCollides() returns (st: State)
    ensures OneStepCollides(st, TimeOut(0))
  {
    st := Scene(Some(0), Absent, Waiting(Some(0)), Racing, [Booting]);
    OneStarts();
    ReachedIsSound(st);
    assert st.Unbound(0);
    CollidesExactly(st, TimeOut(0));
  }

  lemma StopCollides() returns (st: State)
    ensures OneStepCollides(st, Stop(0)) && OneStepCollides(st, Crash(0))
  {
    st := Scene(Some(1), Live(0), Through, Releasing, [Serving, Booting]);
    AnotherBoots();
    ReachedIsSound(st);
    assert st.Unbound(1) && st.starter[1] == 1 && st.Client(1).Releasing?;
    assert !Settled(st, 1);
    CollidesExactly(st, Stop(0));
    CollidesExactly(st, Crash(0));
  }

  lemma SweepCollides() returns (st: State)
    ensures OneStepCollides(st, Sweep)
  {
    st := Scene(None, Live(0), Through, Racing, [Serving]);
    OneListens();
    ReachedIsSound(st);
    CollidesExactly(st, Sweep);
  }

  lemma ForegroundCollides() returns (st: State)
    ensures OneStepCollides(st, Foreground(0))
  {
    st := Scene(None, Absent, Racing, Racing, []);
    BothRace();
    ReachedIsSound(st);
    CollidesExactly(st, Foreground(0));
  }

  /** And the lock file comes to be stuck, with no server started or ever to be by a client. */
  lemma LogFailureSticks() returns (st: State)
    ensures Reached(st) && Enabled(st, LogFails(0)) && Enabled(st, Kill(0))
    ensures LockStuck(Apply(st, LogFails(0))) && LockStuck(Apply(st, Kill(0))) && st.servers == map[]
  {
    st := Scene(Some(0), Absent, Won, Racing, []);
    OneWins();
    ReachedIsSound(st);
    SticksExactly(st, LogFails(0));
    SticksExactly(st, Kill(0));
  }
}
