/**
 The server's flags (`ServerArgs` and `forwarded` in `crates/client/src/settings.rs`): how a command
 spells the ones it was given for the server it starts, and how that server reads them.
 */
module CommandLine {
  import opened Wrappers

  const MAX_COUNT: nat := 0xFFFF_FFFF_FFFF_FFFF

  /** A count that is not zero, as wide as the machine's. */
  type Count = n: nat | 0 < n <= MAX_COUNT witness 1

  datatype Device = Auto | Cpu

  datatype Args = Args(
    device: Option<Device>,
    threads: Option<Count>,
    libraries: seq<string>,
    prepared: Option<bool>,
    fused: Option<bool>,
    split: Option<bool>,
    idle: Option<Count>,
    openIndexes: Option<Count>,
    jit: Option<bool>,
    postgres: Option<string>,
    models: Option<string>)

  const NOTHING := Args(None, None, [], None, None, None, None, None, None, None, None)

  // --- Values as text --------------------------------------------------------------------------

  function Digit(d: nat): char
    requires d < 10
  {
    "0123456789"[d]
  }

  function DigitValue(c: char): Option<nat> {
    if '0' <= c <= '9' then Some((c as int) - ('0' as int)) else None
  }

  function Decimal(n: nat): string {
    if n < 10 then [Digit(n)] else Decimal(n / 10) + [Digit(n % 10)]
  }

  function ReadDecimal(s: string): Option<nat> {
    if s == [] then None
    else
      var last := DigitValue(s[|s| - 1]);
      if last.None? then None
      else if |s| == 1 then last
      else
        var rest := ReadDecimal(s[..|s| - 1]);
        if rest.None? then None else Some(rest.value * 10 + last.value)
  }

  lemma {:induction false} DecimalReadsBack(n: nat)
    ensures ReadDecimal(Decimal(n)) == Some(n)
    ensures Decimal(n) != [] && '0' <= Decimal(n)[0] <= '9'
  {
    if n >= 10 {
      DecimalReadsBack(n / 10);
      assert (Decimal(n / 10) + [Digit(n % 10)])[..|Decimal(n)| - 1] == Decimal(n / 10);
    }
  }

  function ReadCount(s: string): Option<Count> {
    match ReadDecimal(if |s| > 1 && s[0] == '+' then s[1..] else s)
    case None => None
    case Some(n) => if 0 < n <= MAX_COUNT then Some(n) else None
  }

  function Lower(s: string): string {
    seq(|s|, i requires 0 <= i < |s| => if 'A' <= s[i] <= 'Z' then ((s[i] as int) + 32) as char else s[i])
  }

  function Boolean(b: bool): string {
    if b then "true" else "false"
  }

  function ReadBoolean(s: string): Option<bool> {
    var l := Lower(s);
    if l == "y" || l == "yes" || l == "t" || l == "true" || l == "on" || l == "1" then Some(true)
    else if l == "n" || l == "no" || l == "f" || l == "false" || l == "off" || l == "0" then Some(false)
    else None
  }

  predicate Blank(c: char) {
    c == ' ' || c == '\t' || c == '\n' || c == '\r'
  }

  function Trim(s: string): string {
    if s == [] then s
    else if Blank(s[0]) then Trim(s[1..])
    else if Blank(s[|s| - 1]) then Trim(s[..|s| - 1])
    else s
  }

  function Label(d: Device): string {
    match d
    case Auto => "auto"
    case Cpu => "cpu"
  }

  function ReadDevice(s: string): Option<Device> {
    var l := Lower(Trim(s));
    if l == Label(Auto) then Some(Auto) else if l == Label(Cpu) then Some(Cpu) else None
  }

  lemma LabelReadsBack(d: Device)
    ensures ReadDevice(Label(d)) == Some(d)
  {
    assert Lower("auto") == "auto" && Lower("cpu") == "cpu";
  }

  lemma BooleanReadsBack(b: bool)
    ensures ReadBoolean(Boolean(b)) == Some(b)
  {
  }

  // --- Reading a command line ------------------------------------------------------------------

  /** What the command line takes as a flag's value: nothing that reads as a flag itself. */
  predicate Taken(value: string) {
    value == "" || value == "-" || value[0] != '-'
  }

  datatype Name =
    | DeviceFlag | ThreadsFlag | LibraryFlag | PreparedFlag | FusedFlag | SplitFlag | IdleFlag | OpenFlag | JitFlag
    | PostgresFlag | ModelsFlag

  function Spelling(name: Name): string {
    match name
    case DeviceFlag => "--device"
    case ThreadsFlag => "--inference-threads"
    case LibraryFlag => "--ep-library"
    case PreparedFlag => "--prepared"
    case FusedFlag => "--fused-attention"
    case SplitFlag => "--split-embeddings"
    case IdleFlag => "--model-idle"
    case OpenFlag => "--open-indexes"
    case JitFlag => "--jit"
    case PostgresFlag => "--postgres-dir"
    case ModelsFlag => "--models-dir"
  }

  function ReadName(s: string): Option<Name> {
    if s == Spelling(DeviceFlag) then Some(DeviceFlag)
    else if s == Spelling(ThreadsFlag) then Some(ThreadsFlag)
    else if s == Spelling(LibraryFlag) then Some(LibraryFlag)
    else if s == Spelling(PreparedFlag) then Some(PreparedFlag)
    else if s == Spelling(FusedFlag) then Some(FusedFlag)
    else if s == Spelling(SplitFlag) then Some(SplitFlag)
    else if s == Spelling(IdleFlag) then Some(IdleFlag)
    else if s == Spelling(OpenFlag) then Some(OpenFlag)
    else if s == Spelling(JitFlag) then Some(JitFlag)
    else if s == Spelling(PostgresFlag) then Some(PostgresFlag)
    else if s == Spelling(ModelsFlag) then Some(ModelsFlag)
    else None
  }

  lemma NameReadsBack(name: Name)
    ensures ReadName(Spelling(name)) == Some(name)
  {
  }

  /** `acc` with one flag more; none when it was given before, or its value is not one of its. */
  function Set(acc: Args, name: Name, value: string): Option<Args> {
    match name
    case DeviceFlag =>
      var read := ReadDevice(value);
      if acc.device.Some? || read.None? then None else Some(acc.(device := read))
    case ThreadsFlag =>
      var read := ReadCount(value);
      if acc.threads.Some? || read.None? then None else Some(acc.(threads := read))
    case LibraryFlag => Some(acc.(libraries := acc.libraries + [value]))
    case PreparedFlag =>
      var read := ReadBoolean(value);
      if acc.prepared.Some? || read.None? then None else Some(acc.(prepared := read))
    case FusedFlag =>
      var read := ReadBoolean(value);
      if acc.fused.Some? || read.None? then None else Some(acc.(fused := read))
    case SplitFlag =>
      var read := ReadBoolean(value);
      if acc.split.Some? || read.None? then None else Some(acc.(split := read))
    case IdleFlag =>
      var read := ReadCount(value);
      if acc.idle.Some? || read.None? then None else Some(acc.(idle := read))
    case OpenFlag =>
      var read := ReadCount(value);
      if acc.openIndexes.Some? || read.None? then None else Some(acc.(openIndexes := read))
    case JitFlag =>
      var read := ReadBoolean(value);
      if acc.jit.Some? || read.None? then None else Some(acc.(jit := read))
    case PostgresFlag => if acc.postgres.Some? then None else Some(acc.(postgres := Some(value)))
    case ModelsFlag => if acc.models.Some? then None else Some(acc.(models := Some(value)))
  }

  function Read(line: seq<string>, acc: Args): Option<Args> {
    if line == [] then Some(acc)
    else if |line| == 1 || !Taken(line[1]) || ReadName(line[0]).None? then None
    else
      match Set(acc, ReadName(line[0]).value, line[1])
      case None => None
      case Some(next) => Read(line[2..], next)
  }

  // --- Forwarding ------------------------------------------------------------------------------

  function Flag(name: Name, value: Option<string>): seq<string> {
    if value.None? then [] else [Spelling(name), value.value]
  }

  ghost function LibraryFlags(libraries: seq<string>): seq<string> {
    if libraries == [] then []
    else LibraryFlags(libraries[..|libraries| - 1]) + Flag(LibraryFlag, Some(libraries[|libraries| - 1]))
  }

  function DeviceText(d: Option<Device>): Option<string> {
    if d.None? then None else Some(Label(d.value))
  }

  function CountText(n: Option<Count>): Option<string> {
    if n.None? then None else Some(Decimal(n.value))
  }

  function BooleanText(b: Option<bool>): Option<string> {
    if b.None? then None else Some(Boolean(b.value))
  }

  /** `args` as flags: each one given but `--models-dir`, in the order they are declared. */
  ghost function Forwarded(args: Args): seq<string> {
    Flag(DeviceFlag, DeviceText(args.device))
    + Flag(ThreadsFlag, CountText(args.threads))
    + LibraryFlags(args.libraries)
    + Flag(PreparedFlag, BooleanText(args.prepared))
    + Flag(FusedFlag, BooleanText(args.fused))
    + Flag(SplitFlag, BooleanText(args.split))
    + Flag(IdleFlag, CountText(args.idle))
    + Flag(OpenFlag, CountText(args.openIndexes))
    + Flag(JitFlag, BooleanText(args.jit))
    + Flag(PostgresFlag, args.postgres)
  }

  /** `forwarded`: the flags a command was given, as arguments to the server it starts. */
  method Forward(args: Args) returns (line: seq<string>)
    ensures line == Forwarded(args)
  {
    line := Flag(DeviceFlag, DeviceText(args.device));
    line := line + Flag(ThreadsFlag, CountText(args.threads));
    ghost var soFar := line;
    for i := 0 to |args.libraries|
      invariant line == soFar + LibraryFlags(args.libraries[..i])
    {
      assert args.libraries[..i + 1][..i] == args.libraries[..i];
      line := line + Flag(LibraryFlag, Some(args.libraries[i]));
    }
    assert args.libraries[..|args.libraries|] == args.libraries;
    line := line + Flag(PreparedFlag, BooleanText(args.prepared));
    line := line + Flag(FusedFlag, BooleanText(args.fused));
    line := line + Flag(SplitFlag, BooleanText(args.split));
    line := line + Flag(IdleFlag, CountText(args.idle));
    line := line + Flag(OpenFlag, CountText(args.openIndexes));
    line := line + Flag(JitFlag, BooleanText(args.jit));
    line := line + Flag(PostgresFlag, args.postgres);
  }

  // --- What is forwarded reads back ------------------------------------------------------------

  /** A command line in two parts is read part by part. */
  lemma {:induction false} ReadTwo(first: seq<string>, second: seq<string>, acc: Args)
    requires |first| % 2 == 0
    ensures Read(first + second, acc) == match Read(first, acc) case None => None case Some(next) => Read(second, next)
    decreases |first|
  {
    if first == [] {
      assert first + second == second;
    } else {
      assert (first + second)[2..] == first[2..] + second;
      var name := ReadName(first[0]);
      if Taken(first[1]) && name.Some? && Set(acc, name.value, first[1]).Some? {
        ReadTwo(first[2..], second, Set(acc, name.value, first[1]).value);
      }
    }
  }

  lemma ReadFlag(line: seq<string>, acc: Args, so: Option<Args>, name: Name, value: Option<string>)
    requires |line| % 2 == 0 && Read(line, acc) == so
    ensures |line + Flag(name, value)| % 2 == 0
    ensures Read(line + Flag(name, value), acc) ==
            if so.None? || value.None? then so
            else if Taken(value.value) then Set(so.value, name, value.value) else None
  {
    hide Read, Taken, Set, Spelling, ReadName;
    ReadTwo(line, Flag(name, value), acc);
    if so.Some? {
      ReadOne(so.value, name, value);
    }
  }

  lemma ReadOne(acc: Args, name: Name, value: Option<string>)
    ensures Read(Flag(name, value), acc) ==
            if value.None? then Some(acc) else if Taken(value.value) then Set(acc, name, value.value) else None
  {
    hide Spelling, ReadName, Taken, Set;
    if value.Some? {
      NameReadsBack(name);
      assert [Spelling(name), value.value][2..] == [];
    }
  }

  predicate AllTaken(values: seq<string>) {
    forall v :: v in values ==> Taken(v)
  }

  lemma AllTakenAndLast(values: seq<string>)
    requires values != []
    ensures var n := |values| - 1; AllTaken(values) <==> AllTaken(values[..n]) && Taken(values[n])
  {
  }

  lemma {:induction false} ReadLibraries(line: seq<string>, acc: Args, so: Args, libraries: seq<string>)
    requires |line| % 2 == 0 && Read(line, acc) == Some(so)
    ensures |line + LibraryFlags(libraries)| % 2 == 0
    ensures Read(line + LibraryFlags(libraries), acc) ==
            if AllTaken(libraries) then Some(so.(libraries := so.libraries + libraries)) else None
    decreases |libraries|
  {
    hide Read, Taken, AllTaken, Flag;
    if libraries == [] {
      assert line + LibraryFlags(libraries) == line;
      assert so.libraries + libraries == so.libraries;
      NoneTaken();
    } else {
      var n := |libraries| - 1;
      var last := libraries[n];
      ReadLibraries(line, acc, so, libraries[..n]);
      AllTakenAndLast(libraries);
      var before := line + LibraryFlags(libraries[..n]);
      assert line + LibraryFlags(libraries) == before + Flag(LibraryFlag, Some(last));
      ReadFlag(before, acc, Read(before, acc), LibraryFlag, Some(last));
      assert so.libraries + libraries[..n] + [last] == so.libraries + libraries;
    }
  }

  lemma NoneTaken()
    ensures AllTaken([])
  {
  }

  lemma ReadBooleanFlag(line: seq<string>, acc: Args, so: Option<Args>, name: Name, b: Option<bool>)
    requires |line| % 2 == 0 && Read(line, acc) == so
    ensures |line + Flag(name, BooleanText(b))| % 2 == 0
    ensures Read(line + Flag(name, BooleanText(b)), acc) ==
            if so.None? || b.None? then so else Set(so.value, name, Boolean(b.value))
    ensures b.Some? ==> ReadBoolean(Boolean(b.value)) == b
  {
    ReadFlag(line, acc, so, name, BooleanText(b));
    if b.Some? { BooleanReadsBack(b.value); }
  }

  lemma ReadCountFlag(line: seq<string>, acc: Args, so: Option<Args>, name: Name, n: Option<Count>)
    requires |line| % 2 == 0 && Read(line, acc) == so
    ensures |line + Flag(name, CountText(n))| % 2 == 0
    ensures Read(line + Flag(name, CountText(n)), acc) ==
            if so.None? || n.None? then so else Set(so.value, name, Decimal(n.value))
    ensures n.Some? ==> ReadCount(Decimal(n.value)) == n
  {
    ReadFlag(line, acc, so, name, CountText(n));
    if n.Some? { DecimalReadsBack(n.value); }
  }

  /** The server can read the paths it is forwarded: none of them reads as a flag. */
  predicate PathsTaken(args: Args) {
    && AllTaken(args.libraries)
    && (args.postgres.Some? ==> Taken(args.postgres.value))
  }

  /**
   The server started reads back exactly the flags its command was given, but for `--models-dir` -- when,
   and only when, no path among them reads as a flag itself.
   */
  lemma ForwardedReadsBack(args: Args)
    ensures Read(Forwarded(args), NOTHING) == if PathsTaken(args) then Some(args.(models := None)) else None
  {
    hide Read, Flag, ReadDevice, ReadCount, ReadBoolean, Decimal, Boolean, Label, LibraryFlags, Taken, AllTaken,
        Spelling, ReadName, Set;
    var firstTwo := NOTHING.(device := args.device, threads := args.threads);
    var twoFlags := Flag(DeviceFlag, DeviceText(args.device)) + Flag(ThreadsFlag, CountText(args.threads));
    ReadsFirstTwo(args);
    ReadLibraries(twoFlags, NOTHING, firstTwo, args.libraries);
    var withLibraries := twoFlags + LibraryFlags(args.libraries);
    var soFar := Read(withLibraries, NOTHING);
    ReadsLoading(args, withLibraries, soFar);
    var withLoading := withLibraries + Flag(PreparedFlag, BooleanText(args.prepared))
        + Flag(FusedFlag, BooleanText(args.fused))
      + Flag(SplitFlag, BooleanText(args.split));
    ReadsRunning(args, withLoading, Read(withLoading, NOTHING));
    assert [] + args.libraries == args.libraries;
  }

  /** A library whose path begins with a dash is one that does not. */
  lemma DashedPathIsLost(path: string)
    requires |path| > 1 && path[0] == '-'
    ensures Read(Forwarded(NOTHING.(libraries := [path])), NOTHING).None?
  {
    hide Read, Forwarded;
    assert !Taken([path][0]);
    ForwardedReadsBack(NOTHING.(libraries := [path]));
  }

  lemma LabelTaken(d: Device)
    ensures Taken(Label(d))
  {
  }

  lemma ReadsFirstTwo(args: Args)
    ensures var line := Flag(DeviceFlag, DeviceText(args.device)) + Flag(ThreadsFlag, CountText(args.threads));
            |line| % 2 == 0 && Read(line, NOTHING) == Some(NOTHING.(device := args.device, threads := args.threads))
  {
    hide Read, ReadDevice, ReadCount, ReadBoolean, Decimal, Boolean, Label, LibraryFlags, Taken, Spelling, ReadName;
    if args.device.Some? {
      LabelReadsBack(args.device.value);
      LabelTaken(args.device.value);
    }
    ReadOne(NOTHING, DeviceFlag, DeviceText(args.device));
    var line := Flag(DeviceFlag, DeviceText(args.device));
    assert |line| % 2 == 0;
    var so := Read(line, NOTHING);
    assert so == Some(NOTHING.(device := args.device));
    ReadCountFlag(line, NOTHING, so, ThreadsFlag, args.threads);
  }

  lemma ReadsLoading(args: Args, line: seq<string>, so: Option<Args>)
    requires |line| % 2 == 0 && Read(line, NOTHING) == so
    requires so.Some? ==> so.value.prepared.None? && so.value.fused.None? && so.value.split.None?
    ensures var longer := line + Flag(PreparedFlag, BooleanText(args.prepared))
        + Flag(FusedFlag, BooleanText(args.fused))
              + Flag(SplitFlag, BooleanText(args.split));
            && |longer| % 2 == 0
            && Read(longer, NOTHING) ==
               if so.None? then None else Some(so.value.(prepared := args.prepared, fused := args.fused,
                   split := args.split))
  {
    hide Read, Flag, ReadDevice, ReadCount, ReadBoolean, Decimal, Boolean, Label, LibraryFlags, Taken, Spelling,
        ReadName;
    var withPrepared := line + Flag(PreparedFlag, BooleanText(args.prepared));
    ReadBooleanFlag(line, NOTHING, so, PreparedFlag, args.prepared);
    var withFused := withPrepared + Flag(FusedFlag, BooleanText(args.fused));
    ReadBooleanFlag(withPrepared, NOTHING, Read(withPrepared, NOTHING), FusedFlag, args.fused);
    ReadBooleanFlag(withFused, NOTHING, Read(withFused, NOTHING), SplitFlag, args.split);
  }

  lemma ReadsRunning(args: Args, line: seq<string>, so: Option<Args>)
    requires |line| % 2 == 0 && Read(line, NOTHING) == so
    requires so.Some? ==>
        so.value.idle.None? && so.value.openIndexes.None? && so.value.jit.None? && so.value.postgres.None?
    ensures Read(line + Flag(IdleFlag, CountText(args.idle)) + Flag(OpenFlag, CountText(args.openIndexes))
                   + Flag(JitFlag, BooleanText(args.jit)) + Flag(PostgresFlag, args.postgres), NOTHING) ==
            if so.None? || (args.postgres.Some? && !Taken(args.postgres.value)) then None
            else Some(so.value.(idle := args.idle, openIndexes := args.openIndexes, jit := args.jit,
                postgres := args.postgres))
  {
    hide Read, Flag, ReadDevice, ReadCount, ReadBoolean, Decimal, Boolean, Label, LibraryFlags, Taken, Spelling,
        ReadName;
    var withIdle := line + Flag(IdleFlag, CountText(args.idle));
    ReadCountFlag(line, NOTHING, so, IdleFlag, args.idle);
    var withOpen := withIdle + Flag(OpenFlag, CountText(args.openIndexes));
    ReadCountFlag(withIdle, NOTHING, Read(withIdle, NOTHING), OpenFlag, args.openIndexes);
    var withJit := withOpen + Flag(JitFlag, BooleanText(args.jit));
    ReadBooleanFlag(withOpen, NOTHING, Read(withOpen, NOTHING), JitFlag, args.jit);
    ReadFlag(withJit, NOTHING, Read(withJit, NOTHING), PostgresFlag, args.postgres);
  }
}
