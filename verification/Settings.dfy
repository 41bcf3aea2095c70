/**
 What a server runs with (`crates/client/src/settings.rs`): each setting from a flag, or else the
 environment, or else the workspace's file, or else the default -- and when a running server may answer
 a client that asks for other settings. Paths are anchored, and an installation looked for, by the
 operating system: `Place` is what it answers.
 */
module Settings {
  import opened Wrappers
  import opened CommandLine

  datatype Source = Default | Config | FromEnv | FromFlag

  datatype Key =
    | DeviceKey | ThreadsKey | LibrariesKey | PreparedKey | FusedKey | SplitKey | IdleKey | OpenKey | JitKey
    | PostgresKey | ModelsKey

  /** A value as a running server's is compared by. */
  datatype Value =
    | OfDevice(device: Device)
    | Number(n: nat)
    | Switch(on: bool)
    | Path(path: string)
    | Paths(paths: seq<string>)
    | OnePerCore
    | InstallsItsOwn

  datatype Entry = Entry(key: Key, compared: Value, source: Source)

  /** The `[serve]` table of `config.toml`. */
  datatype File = File(
    device: Option<string>,
    threads: Option<Count>,
    libraries: Option<seq<string>>,
    prepared: Option<bool>,
    idle: Option<Count>,
    openIndexes: Option<Count>,
    jit: Option<bool>,
    postgres: Option<string>,
    models: Option<string>)

  /** The two settings the environment can give. */
  datatype Env = Env(device: Option<Device>, models: Option<string>)

  datatype Place = Place(
    fromFlag: string -> Option<string>,
    fromFile: string -> Option<string>,
    installed: string -> bool,
    defaultModels: string)

  datatype Server = Server(
    device: Device,
    threads: Option<Count>,
    libraries: seq<string>,
    prepared: bool,
    fused: bool,
    split: bool,
    idle: nat,
    openIndexes: nat,
    jit: bool,
    postgres: Option<string>,
    models: string,
    entries: seq<Entry>)

  datatype Refusal = UnknownDevice(name: string) | BadPath | NotInstalled(prefix: string)

  const PREPARED := true
  const FUSED_ATTENTION := true
  const SPLIT_EMBEDDINGS := true
  const MODEL_IDLE: Count := 1800
  const OPEN_INDEXES: nat := 16
  const JIT := false

  function Or<T>(a: Option<T>, b: Option<T>): Option<T> {
    if a.Some? then a else b
  }

  function As<T>(a: Option<T>, value: T -> Value): Option<Value> {
    if a.Some? then Some(value(a.value)) else None
  }

  // --- What was given --------------------------------------------------------------------------

  /** The flags as parsed: what the command line does not give, the environment may. */
  function Given(line: Args, env: Env): Args {
    line.(device := Or(line.device, env.device), models := Or(line.models, env.models))
  }

  predicate OnLine(line: Args, key: Key) {
    match key
    case DeviceKey => line.device.Some?
    case ThreadsKey => line.threads.Some?
    case LibrariesKey => line.libraries != []
    case PreparedKey => line.prepared.Some?
    case FusedKey => line.fused.Some?
    case SplitKey => line.split.Some?
    case IdleKey => line.idle.Some?
    case OpenKey => line.openIndexes.Some?
    case JitKey => line.jit.Some?
    case PostgresKey => line.postgres.Some?
    case ModelsKey => line.models.Some?
  }

  /** Where a flag's value came from, if it has one. */
  function GivenBy(line: Args, env: Env, key: Key): Option<Source> {
    if OnLine(line, key) then Some(FromFlag)
    else if (key.DeviceKey? && env.device.Some?) || (key.ModelsKey? && env.models.Some?) then Some(FromEnv)
    else None
  }

  predicate InFile(file: File, key: Key) {
    match key
    case DeviceKey => file.device.Some?
    case ThreadsKey => file.threads.Some?
    case LibrariesKey => file.libraries.Some?
    case PreparedKey => file.prepared.Some?
    case FusedKey => false
    case SplitKey => false
    case IdleKey => file.idle.Some?
    case OpenKey => file.openIndexes.Some?
    case JitKey => file.jit.Some?
    case PostgresKey => file.postgres.Some?
    case ModelsKey => file.models.Some?
  }

  function Pick(key: Key, flag: Option<Value>, given: Option<Source>, config: Option<Value>, default: Value): Entry {
    if flag.Some? then Entry(key, flag.value, OrElse(given, FromFlag))
    else if config.Some? then Entry(key, config.value, Config)
    else Entry(key, default, Default)
  }

  /** Every path anchored, or none when one cannot be. */
  function Anchored(anchor: string -> Option<string>, paths: seq<string>): Option<seq<string>> {
    if paths == [] then Some([])
    else
      var rest := Anchored(anchor, paths[..|paths| - 1]);
      var last := anchor(paths[|paths| - 1]);
      if rest.None? || last.None? then None else Some(rest.value + [last.value])
  }

  /** `None` when there is no path, `Some(None)` when there is one that cannot be anchored. */
  function AnchoredOne(anchor: string -> Option<string>, path: Option<string>): Option<Option<string>> {
    if path.None? then Some(None)
    else
      match anchor(path.value)
      case None => None
      case Some(absolute) => Some(Some(absolute))
  }

  // --- Resolving -------------------------------------------------------------------------------

  /** The paths a server is resolved with, anchored. */
  datatype Resolving = Resolving(
    device: Device,
    flagLibraries: seq<string>,
    fileLibraries: Option<seq<string>>,
    flagPostgres: Option<string>,
    filePostgres: Option<string>,
    flagModels: Option<string>,
    fileModels: Option<string>)

  function ChosenDevice(file: File, args: Args): Result<Device, Refusal> {
    if args.device.Some? then Ok(args.device.value)
    else if file.device.None? then Ok(Auto)
    else
      match ReadDevice(file.device.value)
      case None => Err(UnknownDevice(file.device.value))
      case Some(device) => Ok(device)
  }

  /** What resolving needs of the operating system, in the order it asks; the first refusal ends it. */
  function FromSystem(place: Place, file: File, args: Args): Result<Resolving, Refusal> {
    var device := ChosenDevice(file, args);
    if device.Err? then Err(device.error)
    else
      var flagLibraries := Anchored(place.fromFlag, args.libraries);
      var fileLibraries :=
        if file.libraries.None? then Some(None)
        else var anchored := Anchored(place.fromFile, file.libraries.value);
             if anchored.None? then None else Some(anchored);
      var flagPostgres := AnchoredOne(place.fromFlag, args.postgres);
      var filePostgres := AnchoredOne(place.fromFile, file.postgres);
      if flagLibraries.None? || fileLibraries.None? || flagPostgres.None? || filePostgres.None? then Err(BadPath)
      else
        var postgres := Or(flagPostgres.value, filePostgres.value);
        if postgres.Some? && !place.installed(postgres.value) then Err(NotInstalled(postgres.value))
        else
          var flagModels := AnchoredOne(place.fromFlag, args.models);
          var fileModels := AnchoredOne(place.fromFile, file.models);
          if flagModels.None? || fileModels.None? then Err(BadPath)
          else Ok(Resolving(device.value, flagLibraries.value, fileLibraries.value, flagPostgres.value,
          filePostgres.value,
                            flagModels.value, fileModels.value))
  }

  function EntryFor(place: Place, file: File, line: Args, env: Env, r: Resolving, key: Key): Entry {
    var args, given := Given(line, env), GivenBy(line, env, key);
    match key
    case DeviceKey =>
      Pick(key, As(args.device, d => OfDevice(d)), given, if file.device.Some? then Some(OfDevice(r.device))
          else None, OfDevice(Auto))
    case ThreadsKey => Pick(key, As(args.threads, n => Number(n)), given, As(file.threads, n => Number(n)), OnePerCore)
    case LibrariesKey =>
      Pick(key, if r.flagLibraries == [] then None
          else Some(Paths(r.flagLibraries)), given, As(r.fileLibraries, p => Paths(p)), Paths([]))
    case PreparedKey => Pick(key, As(args.prepared, b => Switch(b)), given, As(file.prepared, b => Switch(b)),
        Switch(PREPARED))
    case FusedKey => Pick(key, As(args.fused, b => Switch(b)), given, None, Switch(FUSED_ATTENTION))
    case SplitKey => Pick(key, As(args.split, b => Switch(b)), given, None, Switch(SPLIT_EMBEDDINGS))
    case IdleKey => Pick(key, As(args.idle, n => Number(n)), given, As(file.idle, n => Number(n)), Number(MODEL_IDLE))
    case OpenKey => Pick(key, As(args.openIndexes, n => Number(n)), given, As(file.openIndexes, n => Number(n)),
        Number(OPEN_INDEXES))
    case JitKey => Pick(key, As(args.jit, b => Switch(b)), given, As(file.jit, b => Switch(b)), Switch(JIT))
    case PostgresKey => Pick(key, As(r.flagPostgres, p => Path(p)), given, As(r.filePostgres, p => Path(p)),
        InstallsItsOwn)
    case ModelsKey => Pick(key, As(r.flagModels, p => Path(p)), given, As(r.fileModels, p => Path(p)),
        Path(place.defaultModels))
  }

  const KEYS: seq<Key> := [
    DeviceKey, ThreadsKey, LibrariesKey, PreparedKey, FusedKey, SplitKey, IdleKey, OpenKey, JitKey, PostgresKey,
        ModelsKey]

  /** `resolve`. */
  function Resolved(place: Place, file: File, line: Args, env: Env): Result<Server, Refusal> {
    var args := Given(line, env);
    match FromSystem(place, file, args)
    case Err(refusal) => Err(refusal)
    case Ok(r) =>
      Ok(Server(
        r.device,
        Or(args.threads, file.threads),
        if r.flagLibraries == [] then OrElse(r.fileLibraries, []) else r.flagLibraries,
        OrElse(Or(args.prepared, file.prepared), PREPARED),
        OrElse(args.fused, FUSED_ATTENTION),
        OrElse(args.split, SPLIT_EMBEDDINGS),
        OrElse(Or(args.idle, file.idle), MODEL_IDLE),
        OrElse(Or(args.openIndexes, file.openIndexes), OPEN_INDEXES),
        OrElse(Or(args.jit, file.jit), JIT),
        Or(r.flagPostgres, r.filePostgres),
        OrElse(Or(r.flagModels, r.fileModels), place.defaultModels),
        seq(|KEYS|, i requires 0 <= i < |KEYS| => EntryFor(place, file, line, env, r, KEYS[i]))))
  }

  /** What `server` runs with for `key`. */
  function ValueOf(server: Server, key: Key): Value {
    match key
    case DeviceKey => OfDevice(server.device)
    case ThreadsKey => if server.threads.None? then OnePerCore else Number(server.threads.value)
    case LibrariesKey => Paths(server.libraries)
    case PreparedKey => Switch(server.prepared)
    case FusedKey => Switch(server.fused)
    case SplitKey => Switch(server.split)
    case IdleKey => Number(server.idle)
    case OpenKey => Number(server.openIndexes)
    case JitKey => Switch(server.jit)
    case PostgresKey => if server.postgres.None? then InstallsItsOwn else Path(server.postgres.value)
    case ModelsKey => Path(server.models)
  }

  // --- Asking a running server -----------------------------------------------------------------

  datatype Asked = Asked(value: Value, chosen: bool)

  /** `asked`: every setting, and whether it was chosen or left to the default. */
  function AskedOf(server: Server): map<Key, Asked> {
    AskedIn(server.entries)
  }

  function AskedIn(entries: seq<Entry>): map<Key, Asked> {
    if entries == [] then map[]
    else
      var last := entries[|entries| - 1];
      AskedIn(entries[..|entries| - 1])[last.key := Asked(last.compared, !last.source.Default?)]
  }

  predicate Differs(running: Entry, asked: map<Key, Asked>) {
    running.key in asked &&
    var wanted := asked[running.key];
    var tolerated := !wanted.chosen && (running.source.FromFlag? || running.source.FromEnv?);
    wanted.value != running.compared && !tolerated
  }

  function Differing(entries: seq<Entry>, asked: map<Key, Asked>): seq<Entry> {
    if entries == [] then []
    else
      var last := entries[|entries| - 1];
      Differing(entries[..|entries| - 1], asked) + if Differs(last, asked) then [last] else []
  }

  /** `mismatch`: the settings a server cannot answer `asked` for, or none if it can. */
  function Mismatch(server: Server, asked: map<Key, Asked>): Option<seq<Entry>> {
    var differing := Differing(server.entries, asked);
    if differing == [] then None else Some(differing)
  }

  // --- Lemmas ----------------------------------------------------------------------------------

  lemma {:induction false} DifferingHas(entries: seq<Entry>, asked: map<Key, Asked>, e: Entry)
    ensures e in Differing(entries, asked) <==> e in entries && Differs(e, asked)
  {
    if entries != [] {
      DifferingHas(entries[..|entries| - 1], asked, e);
      assert entries == entries[..|entries| - 1] + [entries[|entries| - 1]];
    }
  }

  /** A server may answer exactly those that ask for what it runs with, or leave what it was told to it. */
  lemma MismatchExactly(server: Server, asked: map<Key, Asked>)
    ensures Mismatch(server, asked).None? <==>
            forall e :: e in server.entries && e.key in asked ==>
              || asked[e.key].value == e.compared
              || (!asked[e.key].chosen && (e.source.FromFlag? || e.source.FromEnv?))
  {
    forall e ensures e in Differing(server.entries, asked) <==> e in server.entries && Differs(e, asked) {
      DifferingHas(server.entries, asked, e);
    }
    if Mismatch(server, asked).Some? {
      var e := Differing(server.entries, asked)[0];
      assert e in Differing(server.entries, asked);
    }
  }

  /** The entry for `key` of a server as resolved. */
  function EntryOf(server: Server, key: Key): Entry
    requires |server.entries| == |KEYS|
  {
    server.entries[IndexOf(key)]
  }

  function IndexOf(key: Key): (i: nat)
    ensures i < |KEYS| && KEYS[i] == key
  {
    match key
    case DeviceKey => 0
    case ThreadsKey => 1
    case LibrariesKey => 2
    case PreparedKey => 3
    case FusedKey => 4
    case SplitKey => 5
    case IdleKey => 6
    case OpenKey => 7
    case JitKey => 8
    case PostgresKey => 9
    case ModelsKey => 10
  }

  lemma {:induction false} AnchoredLength(anchor: string -> Option<string>, paths: seq<string>)
    ensures Anchored(anchor, paths).Some? ==> |Anchored(anchor, paths).value| == |paths|
  {
    if paths != [] {
      AnchoredLength(anchor, paths[..|paths| - 1]);
    }
  }

  /** `paths` are those of `given`, each as `anchor` spells it. */
  ghost predicate SpelledBy(anchor: string -> Option<string>, given: seq<string>, paths: seq<string>) {
    |paths| == |given| && forall i :: 0 <= i < |given| ==> anchor(given[i]) == Some(paths[i])
  }

  lemma {:induction false} AnchoredSpells(anchor: string -> Option<string>, given: seq<string>)
    requires Anchored(anchor, given).Some?
    ensures SpelledBy(anchor, given, Anchored(anchor, given).value)
  {
    if given != [] {
      AnchoredSpells(anchor, given[..|given| - 1]);
    }
  }

  /**
   What each setting is run with: the flag if it is given, or else the environment, or else the file, or else the
   default.
   */
  lemma PrecedenceHolds(place: Place, file: File, line: Args, env: Env)
    requires Resolved(place, file, line, env).Ok?
    ensures var server := Resolved(place, file, line, env).value;
            && (if line.device.Some? then server.device == line.device.value
                else if env.device.Some? then server.device == env.device.value
                else if file.device.Some? then ReadDevice(file.device.value) == Some(server.device)
                else server.device == Auto)
            && server.threads == (if line.threads.Some? then line.threads else file.threads)
            && server.prepared == (if line.prepared.Some? then line.prepared.value
                                   else if file.prepared.Some? then file.prepared.value else PREPARED)
            && server.fused == (if line.fused.Some? then line.fused.value else FUSED_ATTENTION)
            && server.split == (if line.split.Some? then line.split.value else SPLIT_EMBEDDINGS)
            && server.idle == (if line.idle.Some? then line.idle.value
                               else if file.idle.Some? then file.idle.value else MODEL_IDLE)
            && server.openIndexes == (if line.openIndexes.Some? then line.openIndexes.value
                                      else if file.openIndexes.Some? then file.openIndexes.value else OPEN_INDEXES)
            && server.jit == (if line.jit.Some? then line.jit.value
                              else if file.jit.Some? then file.jit.value else JIT)
  {
  }

  /** And each path: spelled out from where the flag was given, or from the file's own directory. */
  lemma PathPrecedenceHolds(place: Place, file: File, line: Args, env: Env)
    requires Resolved(place, file, line, env).Ok?
    ensures var server := Resolved(place, file, line, env).value;
            && (if line.libraries != [] then SpelledBy(place.fromFlag, line.libraries, server.libraries)
                else if file.libraries.Some? then SpelledBy(place.fromFile, file.libraries.value, server.libraries)
                else server.libraries == [])
            && (if line.postgres.Some? then server.postgres == place.fromFlag(line.postgres.value)
                else if file.postgres.Some? then server.postgres == place.fromFile(file.postgres.value)
                else server.postgres.None?)
            && (server.postgres.Some? ==> place.installed(server.postgres.value))
            && (if line.models.Some? then Some(server.models) == place.fromFlag(line.models.value)
                else if env.models.Some? then Some(server.models) == place.fromFlag(env.models.value)
                else if file.models.Some? then Some(server.models) == place.fromFile(file.models.value)
                else server.models == place.defaultModels)
  {
    hide ReadDevice;
    AnchoredSpells(place.fromFlag, line.libraries);
    AnchoredLength(place.fromFlag, line.libraries);
    if file.libraries.Some? {
      AnchoredSpells(place.fromFile, file.libraries.value);
    }
  }

  /** What a server says of a setting is what it runs with, and says truly whether and by whom it was chosen. */
  lemma EntriesTell(place: Place, file: File, line: Args, env: Env, key: Key)
    requires Resolved(place, file, line, env).Ok?
    ensures var server := Resolved(place, file, line, env).value;
            && |server.entries| == |KEYS|
            && EntryOf(server, key) == Entry(key, ValueOf(server, key),
                OrElse(GivenBy(line, env, key), if InFile(file, key) then Config else Default))
  {
    var args := Given(line, env);
    var r := FromSystem(place, file, args).value;
    AnchoredLength(place.fromFlag, args.libraries);
    var server := Resolved(place, file, line, env).value;
    assert EntryOf(server, key) == EntryFor(place, file, line, env, r, key);
  }

  lemma {:induction false} AskedInAt(entries: seq<Entry>, i: nat)
    requires i < |entries| && forall j :: i < j < |entries| ==> entries[j].key != entries[i].key
    ensures entries[i].key in AskedIn(entries)
    ensures AskedIn(entries)[entries[i].key] == Asked(entries[i].compared, !entries[i].source.Default?)
  {
    if i < |entries| - 1 {
      AskedInAt(entries[..|entries| - 1], i);
    }
  }

  lemma AskedAt(place: Place, file: File, line: Args, env: Env, key: Key)
    requires Resolved(place, file, line, env).Ok?
    ensures var server := Resolved(place, file, line, env).value;
            && key in AskedOf(server)
            && AskedOf(server)[key] == Asked(ValueOf(server, key), GivenBy(line, env, key).Some? || InFile(file, key))
  {
    var server := Resolved(place, file, line, env).value;
    var i := IndexOf(key);
    EntriesTell(place, file, line, env, key);
    forall j | i < j < |KEYS| ensures server.entries[j].key != server.entries[i].key {
      EntriesTell(place, file, line, env, KEYS[j]);
      assert IndexOf(KEYS[j]) == j;
    }
    AskedInAt(server.entries, i);
  }

  /** A setting of a running server suits a client of the same workspace and environment. */
  predicate Suits(file: File, running: Args, asking: Args, env: Env, server: Server, client: Server, key: Key) {
    || ValueOf(server, key) == ValueOf(client, key)
    || (GivenBy(running, env, key).Some? && GivenBy(asking, env, key).None? && !InFile(file, key))
  }

  /**
   A server answers a client of the same workspace exactly when every setting is the one the client resolves
   to, or one the server was told and neither the client nor the file says anything of.
   */
  lemma {:induction false} ServesExactly(place: Place, file: File, running: Args, asking: Args, env: Env)
    requires Resolved(place, file, running, env).Ok? && Resolved(place, file, asking, env).Ok?
    ensures var server, client := Resolved(place, file, running, env).value, Resolved(place, file, asking, env).value;
            Mismatch(server, AskedOf(client)).None? <==>
                forall key :: Suits(file, running, asking, env, server, client, key)
  {
    hide Resolved, AskedIn, ValueOf, GivenBy, InFile, Differing;
    var server, client := Resolved(place, file, running, env).value, Resolved(place, file, asking, env).value;
    var asked := AskedOf(client);
    MismatchExactly(server, asked);
    forall key
      ensures EntryOfSuits(server, asked, key) <==> Suits(file, running, asking, env, server, client, key)
      ensures |server.entries| == |KEYS| && EntryOf(server, key).key == key && key in asked
    {
      EntriesTell(place, file, running, env, key);
      AskedAt(place, file, asking, env, key);
      GivenIsNotDefault(running, env, key);
    }
    EntriesTell(place, file, running, env, DeviceKey);
    EntriesAreKeys(server);
  }

  predicate EntryOfSuits(server: Server, asked: map<Key, Asked>, key: Key) {
    |server.entries| == |KEYS| && key in asked &&
    var e := EntryOf(server, key);
    asked[key].value == e.compared || (!asked[key].chosen && (e.source.FromFlag? || e.source.FromEnv?))
  }

  lemma GivenIsNotDefault(line: Args, env: Env, key: Key)
    ensures GivenBy(line, env, key).Some?
        ==> GivenBy(line, env, key).value.FromFlag? || GivenBy(line, env, key).value.FromEnv?
  {
  }

  lemma EntriesAreKeys(server: Server)
    requires |server.entries| == |KEYS| && forall key :: EntryOf(server, key).key == key
    ensures forall e :: e in server.entries ==> EntryOf(server, e.key) == e
    ensures forall key :: EntryOf(server, key) in server.entries
  {
    forall e | e in server.entries ensures EntryOf(server, e.key) == e {
      var i :| 0 <= i < |server.entries| && server.entries[i] == e;
      assert EntryOf(server, KEYS[i]) == server.entries[IndexOf(KEYS[i])];
      assert IndexOf(KEYS[i]) == i;
    }
  }

  // --- The server a command starts -------------------------------------------------------------

  /** What the server a command starts is given: the flags forwarded to it, as it reads them. */
  ghost function StartedWith(line: Args, env: Env): Option<Args> {
    Read(Forwarded(Given(line, env)), NOTHING)
  }

  /** But for `--models-dir`, a server started by a command is given what the command was. */
  lemma StartedWithTheSame(line: Args, env: Env)
    ensures StartedWith(line, env) ==
            if PathsTaken(line) then Some(Given(line, env).(models := None)) else None
    ensures line.models.None? && PathsTaken(line) ==> Given(StartedWith(line, env).value, env) == Given(line, env)
  {
    ForwardedReadsBack(Given(line, env));
  }

  /** The same settings given give the same server, whether on the command line or by the environment. */
  lemma SameGivenSameValues(place: Place, file: File, a: Args, b: Args, env: Env)
    requires Given(a, env) == Given(b, env)
    ensures Resolved(place, file, a, env).Ok? <==> Resolved(place, file, b, env).Ok?
    ensures Resolved(place, file, a, env).Ok? ==>
              forall key :: ValueOf(Resolved(place, file, a, env).value, key)
                  == ValueOf(Resolved(place, file, b, env).value, key)
  {
  }

  /**
   The server a command starts runs with the settings the command resolved and answers it -- for every
   command given no `--models-dir`, and no path that reads as a flag.
   */
  lemma StartedServerServes(place: Place, file: File, line: Args, env: Env)
    requires Resolved(place, file, line, env).Ok? && PathsTaken(line) && line.models.None?
    ensures StartedWith(line, env).Some?
    ensures var started, client := Resolved(place, file, StartedWith(line, env).value, env),
        Resolved(place, file, line, env).value;
            && started.Ok?
            && (forall key :: ValueOf(started.value, key) == ValueOf(client, key))
            && Mismatch(started.value, AskedOf(client)).None?
  {
    hide Read, Forwarded, Resolved, ValueOf, Mismatch;
    StartedWithTheSame(line, env);
    var forwarded := StartedWith(line, env).value;
    SameGivenSameValues(place, file, forwarded, line, env);
    ServesExactly(place, file, forwarded, line, env);
  }

  /**
   `--models-dir` is not forwarded: a server started by a command given it runs with the directory the
   command would have resolved without it, and refuses that very command unless the two are the same.
   */
  lemma ModelsDirIsNotForwarded(place: Place, file: File, line: Args, env: Env)
    requires Resolved(place, file, line, env).Ok? && PathsTaken(line) && line.models.Some?
    requires Resolved(place, file, line.(models := None), env).Ok?
    ensures StartedWith(line, env).Some?
    ensures var started, client := Resolved(place, file, StartedWith(line, env).value, env),
        Resolved(place, file, line, env).value;
            && started.Ok?
            && started.value.models == Resolved(place, file, line.(models := None), env).value.models
            && (Mismatch(started.value, AskedOf(client)).None? <==> started.value.models == client.models)
  {
    hide Read, Forwarded, Resolved, Mismatch;
    StartedWithTheSame(line, env);
    var forwarded := StartedWith(line, env).value;
    var without := line.(models := None);
    assert Given(forwarded, env) == Given(without, env);
    SameGivenSameValues(place, file, forwarded, without, env);
    var started, client := Resolved(place, file, forwarded, env).value, Resolved(place, file, line, env).value;
    assert ValueOf(started, ModelsKey) == ValueOf(Resolved(place, file, without, env).value, ModelsKey);
    ModelsAside(place, file, line, env);
    ServesExactly(place, file, forwarded, line, env);
    if started.models == client.models {
      forall key ensures Suits(file, forwarded, line, env, started, client, key) {
      }
    } else {
      assert !Suits(file, forwarded, line, env, started, client, ModelsKey);
    }
  }

  /** Where the models are kept says nothing of any other setting. */
  lemma ModelsAside(place: Place, file: File, line: Args, env: Env)
    requires Resolved(place, file, line, env).Ok? && Resolved(place, file, line.(models := None), env).Ok?
    ensures forall key :: key != ModelsKey ==>
              ValueOf(Resolved(place, file, line, env).value, key)
                  == ValueOf(Resolved(place, file, line.(models := None), env).value, key)
  {
  }

  const NO_FILE := File(None, None, None, None, None, None, None, None, None)

  /** A command given another directory than the default and nothing else is refused by the server it starts. */
  lemma ModelsDirIsRefused(place: Place, models: string)
    requires place.fromFlag(models).Some? && place.fromFlag(models) != Some(place.defaultModels)
    ensures var line := NOTHING.(models := Some(models));
            var client, given := Resolved(place, NO_FILE, line, Env(None, None)), StartedWith(line, Env(None, None));
            && client.Ok? && given.Some? && Resolved(place, NO_FILE, given.value, Env(None, None)).Ok?
            && Mismatch(Resolved(place, NO_FILE, given.value, Env(None, None)).value, AskedOf(client.value)).Some?
  {
    hide StartedWith, Mismatch, AskedOf;
    var line := NOTHING.(models := Some(models));
    assert Resolved(place, NO_FILE, line, Env(None, None)).Ok?;
    assert Resolved(place, NO_FILE, line.(models := None), Env(None, None)).Ok?;
    ModelsDirIsNotForwarded(place, NO_FILE, line, Env(None, None));
  }
}
