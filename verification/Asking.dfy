/**
 One command's request to its workspace's server (`ask` in `crates/client/src/client.rs`,
 `serve_connection` in `crates/cli/src/server.rs`): a server from another build is stopped and replaced,
 once. Who listens at each connection, whether a server starts, and what becomes of each exchange are
 the `World`'s; what the servers executed is written to the log.
 */
module Asking {
  import opened Wrappers
  import CommandLine
  import Settings

  /** A server: which build's, which protocol it speaks, and what it runs with. */
  datatype Server = Server(identity: string, wire: string, settings: Settings.Server)

  datatype Request = Request(stop: bool, version: string, wire: string, asked: map<Settings.Key, Settings.Asked>)

  datatype Response = Value | Message | Mismatch(server: string, wire: string)

  /** The `stop` a client sends to replace a server. */
  const FAREWELL := Request(true, "", "", map[])

  // --- The server ------------------------------------------------------------------------------

  predicate SameBuild(server: Server, request: Request) {
    request.version == server.identity && request.wire == server.wire
  }

  predicate Executes(server: Server, request: Request) {
    request.stop || (SameBuild(server, request) && Settings.Mismatch(server.settings, request.asked).None?)
  }

  /** What a server answers, `works` being whether what it executes succeeds. */
  function Answer(server: Server, request: Request, works: bool): Response {
    if !request.stop && !SameBuild(server, request) then Mismatch(server.identity, server.wire)
    else if !request.stop && Settings.Mismatch(server.settings, request.asked).Some? then Message
    else if works then Value else Message
  }

  // --- The world -------------------------------------------------------------------------------

  /** The connections one command may make: at first, to one it started, to say farewell, and to the replacement. */
  datatype Stage = First | Started | Farewell | Replaced

  /** An exchange may break before the server hears the request, or before the client hears the answer. */
  datatype Fate = Unsent | Unheard | Answered(works: bool)

  datatype World = World(listening: Stage -> Option<Server>, starts: Stage -> bool, fate: Stage -> Fate)

  datatype Event = Executed(server: Server, request: Request)

  datatype Outcome =
    | NoServer | Served | Failed | NotStarted | NotConnected | Broken
    | OtherBuild(wire: string) | StillMismatched(server: string)

  class Client {
    // the identity of the server it would start
    const version: string
    const wire: string
    const world: World
    ghost var log: seq<Event>

    constructor (version: string, wire: string, world: World)
      ensures this.version == version && this.wire == wire && this.world == world && log == []
    {
      this.version, this.wire, this.world := version, wire, world;
      log := [];
    }

    /** `exchange`: one request, and the answer if it is heard. */
    method Exchange(server: Server, request: Request, stage: Stage) returns (response: Option<Response>)
      modifies this
      ensures log == old(log) + ExchangeLog(world, stage, server, request)
      ensures response == ExchangeAnswer(world, stage, server, request)
    {
      match world.fate(stage)
      case Unsent =>
        return None;
      case Unheard =>
        if Executes(server, request) {
          log := log + [Executed(server, request)];
        }
        return None;
      case Answered(works) =>
        if Executes(server, request) {
          log := log + [Executed(server, request)];
        }
        return Some(Answer(server, request, works));
    }

    /** `stop_and_wait`, the answer being of no interest. */
    method StopAndWait()
      modifies this
      ensures log == old(log) + FarewellLog(world)
    {
      var server := world.listening(Farewell);
      if server.Some? {
        var _ := Exchange(server.value, FAREWELL, Farewell);
      }
    }

    /**
     `ask`: over every server it talks to, the replacement included, the request is executed at most once -- once if it
     was served, not at all when it gave up for want of a server it can talk to -- and only by a server that agrees.
     */
    method Ask(request: Request) returns (outcome: Outcome, ghost executed: seq<Event>)
      modifies this
      ensures log == old(log) + executed
      ensures Times(executed, request) <= 1
      ensures outcome.Served? ==> Times(executed, request) == 1
      ensures GaveUp(outcome) ==> Times(executed, request) == 0
      ensures forall e ::
          e in executed ==> (e.request == request && Executes(e.server, request)) || e.request == FAREWELL
      ensures (outcome, executed) == Asked(world, version, wire, request)
    {
      ExecutedAtMostOnce(world, version, wire, request);
      executed := Asked(world, version, wire, request).1;
      forall e | e in executed ensures (e.request == request && Executes(e.server, request)) || e.request == FAREWELL {
        OnlyExecuted(world, version, wire, request, e);
      }
      outcome := AskOnce(request);
    }

    /** The connections `ask` makes, one after another. */
    method AskOnce(request: Request) returns (outcome: Outcome)
      modifies this
      ensures outcome == Asked(world, version, wire, request).0
      ensures log == old(log) + Asked(world, version, wire, request).1
    {
      var server := world.listening(First);
      var stage := First;
      if server.None? {
        if request.stop {
          return NoServer;
        }
        if !world.starts(First) {
          return NotStarted;
        }
        server := world.listening(Started);
        stage := Started;
        if server.None? {
          return NotConnected;
        }
      }
      var response := Exchange(server.value, request, stage);
      match response
      case None =>
        return Broken;
      case Some(Value) =>
        return Served;
      case Some(Message) =>
        return Failed;
      case Some(Mismatch(theirs, theirWire)) =>
        if theirs == version && theirWire != wire {
          return OtherBuild(theirWire);
        }
        StopAndWait();
        if !world.starts(Replaced) {
          return NotStarted;
        }
        server := world.listening(Replaced);
        if server.None? {
          return NotConnected;
        }
        response := Exchange(server.value, request, Replaced);
        match response
        case None => return Broken;
        case Some(Value) => return Served;
        case Some(Message) => return Failed;
        case Some(Mismatch(still, stillWire)) =>
          return if stillWire != wire then OtherBuild(stillWire) else StillMismatched(still);
    }
  }

  // --- What one command comes to ---------------------------------------------------------------

  function ExchangeAnswer(world: World, stage: Stage, server: Server, request: Request): Option<Response> {
    match world.fate(stage)
    case Answered(works) => Some(Answer(server, request, works))
    case _ => None
  }

  function ExchangeLog(world: World, stage: Stage, server: Server, request: Request): seq<Event> {
    if !world.fate(stage).Unsent? && Executes(server, request) then [Executed(server, request)] else []
  }

  function FarewellLog(world: World): seq<Event> {
    match world.listening(Farewell)
    case None => []
    case Some(server) => ExchangeLog(world, Farewell, server, FAREWELL)
  }

  /** The server first asked, at which stage, or why there is none. */
  function FirstAsked(world: World, request: Request): Result<(Stage, Server), Outcome> {
    if world.listening(First).Some? then Ok((First, world.listening(First).value))
    else if request.stop then Err(NoServer)
    else if !world.starts(First) then Err(NotStarted)
    else if world.listening(Started).None? then Err(NotConnected)
    else Ok((Started, world.listening(Started).value))
  }

  function Finished(response: Option<Response>, wire: string): Outcome {
    match response
    case None => Broken
    case Some(Value) => Served
    case Some(Message) => Failed
    case Some(Mismatch(server, theirs)) => if theirs != wire then OtherBuild(theirs) else StillMismatched(server)
  }

  function Asked(world: World, version: string, wire: string, request: Request): (Outcome, seq<Event>) {
    match FirstAsked(world, request)
    case Err(outcome) => (outcome, [])
    case Ok((stage, server)) =>
      var response, log := ExchangeAnswer(world, stage, server, request), ExchangeLog(world, stage, server, request);
      if response.None? || !response.value.Mismatch? then (Finished(response, wire), log)
      else if response.value.server == version && response.value.wire != wire
          then (OtherBuild(response.value.wire), log)
      else if !world.starts(Replaced) then (NotStarted, log + FarewellLog(world))
      else if world.listening(Replaced).None? then (NotConnected, log + FarewellLog(world))
      else
        var replacement := world.listening(Replaced).value;
        (Finished(ExchangeAnswer(world, Replaced, replacement, request), wire),
         log + FarewellLog(world) + ExchangeLog(world, Replaced, replacement, request))
  }

  function Times(log: seq<Event>, request: Request): nat {
    if log == [] then 0
    else Times(log[..|log| - 1], request) + if log[|log| - 1].request == request then 1 else 0
  }

  /** A request as a client of `version` and `wire` makes it. */
  predicate Made(request: Request, version: string, wire: string) {
    request.version == version && request.wire == wire
  }

  /** Without a server that it could put the request to. */
  predicate GaveUp(outcome: Outcome) {
    outcome.NoServer? || outcome.NotStarted? || outcome.NotConnected? || outcome.OtherBuild? || outcome.StillMismatched?
  }

  // --- Properties ------------------------------------------------------------------------------

  lemma {:induction false} TimesOfTwo(a: seq<Event>, b: seq<Event>, request: Request)
    ensures Times(a + b, request) == Times(a, request) + Times(b, request)
  {
    if b == [] {
      assert a + b == a;
    } else {
      assert (a + b)[..|a + b| - 1] == a + b[..|b| - 1];
      TimesOfTwo(a, b[..|b| - 1], request);
    }
  }

  /** An exchange executes a request at most once, and one answered with another build's identity not at all. */
  lemma ExchangeExecutes(world: World, stage: Stage, server: Server, request: Request)
    ensures |ExchangeLog(world, stage, server, request)| <= 1
    ensures Times(ExchangeLog(world, stage, server, request), request) <= 1
    ensures var answer := ExchangeAnswer(world, stage, server, request);
            && (answer == Some(Value) ==> Times(ExchangeLog(world, stage, server, request), request) == 1)
            && (answer.Some? && answer.value.Mismatch? ==>
                  !request.stop && ExchangeLog(world, stage, server, request) == [])
  {
  }

  lemma FarewellExecutes(world: World, request: Request)
    ensures |FarewellLog(world)| <= 1
    ensures !request.stop ==> Times(FarewellLog(world), request) == 0
  {
  }

  /**
   Over every server it talks to, replacement included, a command's request is executed at most once --
   exactly once if it was served, and not at all when it gave up for want of a server it can talk to.
   */
  lemma {:induction false} ExecutedAtMostOnce(world: World, version: string, wire: string, request: Request)
    ensures var (outcome, log) := Asked(world, version, wire, request);
            && Times(log, request) <= 1
            && (outcome.Served? ==> Times(log, request) == 1)
            && (GaveUp(outcome) ==> Times(log, request) == 0)
  {
    hide ExchangeLog, ExchangeAnswer, FarewellLog, Times;
    NoTimes(request);
    if FirstAsked(world, request).Ok? {
      var (stage, server) := FirstAsked(world, request).value;
      ExchangeExecutes(world, stage, server, request);
      FarewellExecutes(world, request);
      var first, farewell := ExchangeLog(world, stage, server, request), FarewellLog(world);
      TimesOfTwo(first, farewell, request);
      if world.listening(Replaced).Some? {
        ExchangeExecutes(world, Replaced, world.listening(Replaced).value, request);
        TimesOfTwo(first + farewell, ExchangeLog(world, Replaced, world.listening(Replaced).value, request), request);
      }
    }
  }

  lemma NoTimes(request: Request)
    ensures Times([], request) == 0
  {
  }

  lemma OnlyExecuted(world: World, version: string, wire: string, request: Request, e: Event)
    requires e in Asked(world, version, wire, request).1
    ensures (e.request == request && Executes(e.server, request)) || e.request == FAREWELL
  {
  }

  /**
   Whatever is executed is the request or the farewell; the request only by a server of the same build and
   protocol whose settings suit it, unless it is a `stop`, which any server executes.
   */
  lemma ExecutedByThoseThatAgree(world: World, version: string, wire: string, request: Request, e: Event)
    requires Made(request, version, wire) && e in Asked(world, version, wire, request).1
    ensures e.request == request || e.request == FAREWELL
    ensures e.request == request && !request.stop ==>
              && e.server.identity == version && e.server.wire == wire
              && Settings.Mismatch(e.server.settings, request.asked).None?
  {
    OnlyExecuted(world, version, wire, request, e);
  }

  /**
   A client says farewell only when the server it first asked is of another build than it would start: one
   of that build with another protocol is left to whoever is using it.
   */
  lemma FarewellOnlyAfterAnotherBuild(world: World, version: string, wire: string, request: Request, e: Event)
    requires Made(request, version, wire) && request != FAREWELL
    requires e in Asked(world, version, wire, request).1 && e.request == FAREWELL
    ensures FirstAsked(world, request).Ok? && FirstAsked(world, request).value.1.identity != version
    ensures world.listening(Farewell) == Some(e.server)
  {
  }

  /** So with nobody else replacing it meanwhile, no server of the build a client would start is stopped by it. */
  lemma OwnBuildIsNotStopped(world: World, version: string, wire: string, request: Request, e: Event)
    requires Made(request, version, wire) && request != FAREWELL
    requires FirstAsked(world, request).Ok?
        && world.listening(Farewell) in {None, Some(FirstAsked(world, request).value.1)}
    requires e in Asked(world, version, wire, request).1 && e.request == FAREWELL
    ensures e.server.identity != version
  {
    FarewellOnlyAfterAnotherBuild(world, version, wire, request, e);
  }

  /**
   But the farewell goes to whoever listens by then: when another client has replaced the server first, a
   server that would have answered is stopped. It happens exactly when one of that build listens by then.
   */
  lemma ReplacementIsStoppedExactly(world: World, version: string, wire: string, request: Request)
    requires Made(request, version, wire) && !request.stop
    ensures (exists e ::
        e in Asked(world, version, wire, request).1 && e.request == FAREWELL && e.server.identity == version)
       <==> && FirstAsked(world, request).Ok?
            && FirstAsked(world, request).value.1.identity != version
            && world.fate(FirstAsked(world, request).value.0).Answered?
            && world.listening(Farewell).Some? && world.listening(Farewell).value.identity == version
            && !world.fate(Farewell).Unsent?
  {
    var log := Asked(world, version, wire, request).1;
    if FirstAsked(world, request).Ok? && world.listening(Farewell).Some? {
      var (stage, server) := FirstAsked(world, request).value;
      var farewell := Executed(world.listening(Farewell).value, FAREWELL);
      if server.identity != version && world.fate(stage).Answered? && !world.fate(Farewell).Unsent? {
        assert FarewellLog(world) == [farewell];
        assert farewell in FarewellLog(world);
        assert farewell in log;
      }
    }
  }

  /**
   So one is: a server of another build answers, and another client has put the new build in its place by the
   farewell.
   */
  lemma ReplacementIsStopped(running: Settings.Server, asked: map<Settings.Key, Settings.Asked>)
      returns (world: World, e: Event)
    ensures e in Asked(world, "new", "1", Request(false, "new", "1", asked)).1
    ensures e.request == FAREWELL && e.server.identity == "new" && e.server.wire == "1"
  {
    var earlier, later := Server("old", "1", running), Server("new", "1", running);
    world := World((stage: Stage) => Some(if stage.First? then earlier else later), _ => true, _ => Answered(true));
    e := Executed(later, FAREWELL);
    assert e in FarewellLog(world);
  }

  /** The answer of `server`, asked at `stage`, is heard and is what executing the request came to. */
  predicate ServesAt(world: World, stage: Stage, server: Server, request: Request) {
    world.fate(stage) == Answered(true) && Executes(server, request)
  }

  /** `server`, first asked at `stage`, answers that it is of another build than the client would start. */
  predicate IsReplaced(world: World, version: string, request: Request, stage: Stage, server: Server) {
    !request.stop && world.fate(stage).Answered? && server.identity != version
  }

  /**
   A command is served exactly when the server it first asks serves it, or is of another build and the one that is
   started in its place serves it.
   */
  lemma ServedExactly(world: World, version: string, wire: string, request: Request)
    requires Made(request, version, wire)
    ensures Asked(world, version, wire, request).0.Served? <==>
            && FirstAsked(world, request).Ok?
            && var (stage, server) := FirstAsked(world, request).value;
               || ServesAt(world, stage, server, request)
               || (&& IsReplaced(world, version, request, stage, server)
                   && world.starts(Replaced) && world.listening(Replaced).Some?
                   && ServesAt(world, Replaced, world.listening(Replaced).value, request))
  {
  }

  /** What comes of a replacement: it is put the request, and what it answers is what the command comes to. */
  lemma ReplacementIsAsked(
      world: World, version: string, wire: string, request: Request, stage: Stage, server: Server, substitute: Server)
    requires Made(request, version, wire) && FirstAsked(world, request) == Ok((stage, server))
    requires IsReplaced(world, version, request, stage, server)
    requires world.starts(Replaced) && world.listening(Replaced) == Some(substitute)
    ensures !world.fate(Replaced).Unsent? && Executes(substitute, request) ==>
              Executed(substitute, request) in Asked(world, version, wire, request).1
    ensures var outcome := Asked(world, version, wire, request).0;
            match world.fate(Replaced)
            case Answered(works) =>
              if substitute.wire != wire then outcome == OtherBuild(substitute.wire)
              else if substitute.identity != version then outcome == StillMismatched(substitute.identity)
              else if Executes(substitute, request) && works then outcome == Served
              else outcome == Failed
            case _ => outcome == Broken
  {
  }

  /** With nobody listening a `stop` has nothing to do; any other command starts a server, or says why it has none. */
  lemma NobodyListening(world: World, version: string, wire: string, request: Request)
    requires world.listening(First).None?
    ensures var (outcome, log) := Asked(world, version, wire, request);
            if request.stop then outcome == NoServer && log == []
            else if !world.starts(First) then outcome == NotStarted && log == []
            else if world.listening(Started).None? then outcome == NotConnected && log == []
            else FirstAsked(world, request) == Ok((Started, world.listening(Started).value))
  {
  }

  /**
   A first server that agrees executes the request if it hears it, answered or not, and nothing else happens to
   anybody.
   */
  lemma AgreeingServerServes(world: World, version: string, wire: string, request: Request, stage: Stage,
      server: Server)
    requires FirstAsked(world, request) == Ok((stage, server)) && Executes(server, request)
    ensures Asked(world, version, wire, request).1 == if world.fate(stage).Unsent? then []
        else [Executed(server, request)]
    ensures Asked(world, version, wire, request).0
         == if !world.fate(stage).Answered? then Broken else if world.fate(stage).works then Served else Failed
  {
  }

  /** So a `stop` is executed exactly when somebody listens and hears it, whatever build that is of. */
  lemma HeardStopIsExecuted(world: World, version: string, wire: string, request: Request)
    requires request.stop
    ensures Times(Asked(world, version, wire, request).1, request)
         == if world.listening(First).Some? && !world.fate(First).Unsent? then 1 else 0
  {
    NoTimes(request);
    if world.listening(First).Some? {
      AgreeingServerServes(world, version, wire, request, First, world.listening(First).value);
    }
  }

  /**
   A command that finds nobody listening is served by the server it starts: that server resolves, from the
   flags forwarded to it, settings the command is content with.
   */
  lemma ColdStartServes(
      world: World, version: string, wire: string, request: Request,
      place: Settings.Place, file: Settings.File, line: CommandLine.Args, env: Settings.Env)
    requires Settings.Resolved(place, file, line, env).Ok? && CommandLine.PathsTaken(line) && line.models.None?
    requires Made(request, version, wire) && !request.stop
    requires request.asked == Settings.AskedOf(Settings.Resolved(place, file, line, env).value)
    requires world.listening(First).None? && world.starts(First) && world.fate(Started) == Answered(true)
    requires world.listening(Started).Some? && world.listening(Started).value.identity == version
        && world.listening(Started).value.wire == wire
    requires var given := Settings.StartedWith(line, env);
             given.Some? ==>
                 Settings.Resolved(place, file, given.value, env) == Ok(world.listening(Started).value.settings)
    ensures Asked(world, version, wire, request) == (Served, [Executed(world.listening(Started).value, request)])
  {
    hide Settings.Resolved, Settings.Mismatch, Settings.StartedWith;
    Settings.StartedServerServes(place, file, line, env);
  }
}
