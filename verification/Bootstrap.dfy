/** The workspace readiness transaction: what is on disk, what one process does to it step by
    step under the workspace lock, and what the fast path looks at. */
module Bootstrap {
  import opened Basics
  import opened Encoding
  import opened Fingerprints

  // ---- Outcomes ------------------------------------------------------------------------

  datatype Reason =
    | ReadyFastPath | ReadyRepaired | LockTimeout | ToolMissing | SyncFailed | SyncTimeout
    | PrewarmFailed | PrewarmTimeout | LockedCheckFailed | HookStatusFailed | CustomHooksUnmanaged
    | HookSeatCollision | InvalidWorkspace | FingerprintFailed | StateIoFailed | UnexpectedInternalError

  datatype ReadyState = ReadyState(reason: Reason, fingerprint: Option<string>)

  predicate IsReady(r: Reason) {
    r.ReadyFastPath? || r.ReadyRepaired?
  }

  // ---- The workspace -------------------------------------------------------------------

  /** What occupies a hook's place in the git hooks directory. */
  datatype Seat =
    | Absent
    | Copy(bytes: Bytes, executable: bool)
    | LinkToSource(executable: bool)
    | LinkElsewhere
    | Blocked  // a directory, or something unreadable

  /** Git's hooks directory; under a custom path the scripts found there may or may not be current, and the
      default one need not exist yet. */
  datatype HooksDir = Unresolvable | Custom(current: bool) | Default(present: bool)

  datatype Json = Str(s: string) | Num(n: real) | OtherJson

  /** What loading the marker gives. `Malformed`: JSONDecodeError. `NotUtf8`: the bytes do not decode.
      `Unloadable`: another exception, as for integers with too many digits or for deep nesting. */
  datatype MarkerContent = Object(fields: map<string, Json>) | Malformed | NotAnObject | NotUtf8 | Unloadable

  /** `isPrivate`: a regular file with mode 0600. */
  datatype Marker = NoMarker | Marker(isPrivate: bool, content: MarkerContent)

  /** `text` is None when the bytes are not UTF-8. */
  datatype Sentinel = Sentinel(isPrivate: bool, text: Option<string>)

  /** The state directory with its log and lock files: as it should be, not yet so, or symlinked. */
  datatype StatePaths = InOrder | OutOfOrder | Linked

  datatype World = World(
    valid: bool,        // looks like a managed checkout
    paths: StatePaths,
    uv: string,         // version text of uv; "" when it cannot be had
    python: string,     // minor version of the project's python; "" when it cannot be had
    readable: bool,     // the fingerprint inputs can be read
    source: Source,
    synced: bool,       // what the locked check would say
    hooksDir: HooksDir,
    seats: seq<Seat>,
    marker: Marker,
    sentinels: map<string, Sentinel>)

  /** What the transaction takes as given: how inputs are turned into a fingerprint, and the minor
      version of the interpreter that runs the engine. */
  datatype Host = Host(digest: (Source, string, string) -> string, runtimePython: string)

  // ---- Reading the state ------------------------------------------------------------------

  predicate SeatCurrent(hook: Hook, seat: Seat) {
    match seat
    case Copy(bytes, executable) => executable && bytes == hook.bytes
    case LinkToSource(executable) => executable
    case _ => false
  }

  predicate SeatManageable(hook: Hook, seat: Seat) {
    match seat
    case Absent => true
    case Copy(bytes, _) => bytes == hook.bytes
    case LinkToSource(_) => true
    case _ => false
  }

  predicate AllCurrent(hooks: seq<Hook>, seats: seq<Seat>) {
    |seats| == |hooks| && forall i :: 0 <= i < |hooks| ==> SeatCurrent(hooks[i], seats[i])
  }

  predicate AllManageable(hooks: seq<Hook>, seats: seq<Seat>) {
    |seats| == |hooks| && forall i :: 0 <= i < |hooks| ==> SeatManageable(hooks[i], seats[i])
  }

  predicate HooksCurrent(w: World) {
    match w.hooksDir
    case Unresolvable => false
    case Custom(current) => current
    case Default(present) => present && AllCurrent(w.source.hooks, w.seats)
  }

  /** None when the installed hooks may be managed. */
  function OwnershipProblem(w: World): Option<Reason> {
    match w.hooksDir
    case Unresolvable => Some(HookStatusFailed)
    case Custom(_) => Some(CustomHooksUnmanaged)
    case Default(present) =>
      if !present || AllManageable(w.source.hooks, w.seats) then None else Some(HookSeatCollision)
  }

  /** `os`: the exception is an OSError. */
  datatype Answer = Yes | No | Raises(os: bool)

  function MarkerMatches(m: Marker, fp: string, python: string, uv: string): Answer {
    if m.NoMarker? || !m.isPrivate then No
    else match m.content
      case Malformed => No
      case NotAnObject => Raises(false)  // AttributeError
      case NotUtf8 => Raises(false)      // UnicodeDecodeError
      case Unloadable => Raises(false)   // ValueError, RecursionError
      case Object(fields) =>
        if "checked_at" in fields && fields["checked_at"].Str?
           && fields == map["checked_at" := fields["checked_at"], "fingerprint" := Str(fp),
                            "project_python" := Str(python), "schema" := Num(SCHEMA as real),
                            "state" := Str("ready"), "uv_version" := Str(uv)]
        then Yes else No
  }

  function SentinelMatches(w: World, fp: string): Answer {
    if fp !in w.sentinels || !w.sentinels[fp].isPrivate then No
    else match w.sentinels[fp].text
      case None => Raises(false)
      case Some(text) => if text == fp + "\n" then Yes else No
  }

  /** How an action of the outside turns out. `Late`: the file was replaced, then an error came.
      `OsError` and `Raise`: an exception that the action's own handler does not expect, an OSError
      or not. `Exit`: SystemExit. */
  datatype Io = Ok | Fail | Timeout | Late | OsError | Raise | Exit

  predicate Unexpected(io: Io) {
    io.OsError? || io.Raise?
  }

  /** What the locked check says when it is run. */
  function CheckAnswer(synced: bool, io: Io): Answer {
    if Unexpected(io) then Raises(io.OsError?) else if io.Ok? && synced then Yes else No
  }

  /** `check` is what the locked check would say; it is run last. */
  function FastReady(w: World, uv: string, python: string, fp: string, check: Answer): Answer {
    var sentinel := SentinelMatches(w, fp);
    if sentinel.Raises? then sentinel
    else
      var marker := MarkerMatches(w.marker, fp, python, uv);
      if !marker.Yes? then marker
      else if HooksCurrent(w) && sentinel.Yes? then check else No
  }

  // ---- One process --------------------------------------------------------------------------

  /** Where a process stands in `ensure`. */
  datatype Pc =
    | Prepare | Acquire
    | Uv | Python | Print | Own | Fast
    | Unmark | OwnA | InstallA | Sync | Prewarm | OwnB | InstallB
    | Python2 | Print2 | Check | Current | PutSentinel | PutMarker
    | Record | Log | LogUnmark
    | Finished

  /** What a step meets: its turn of fate, and what commands leave behind. */
  datatype Choice = Choice(io: Io, python: string, synced: bool, seats: seq<Seat>, stamp: string)

  /** The acts of the process that holds the lock. */
  datatype Act =
    | Acquired | Unmarked | HooksInstalled | Synced | Prewarmed | Checked(fp: string) | HooksSeen
    | SentinelWritten(fp: string) | MarkerWritten(fp: string) | Released | Crashed

  /** `outcome` is None as long as there is none, and for a process that SystemExit ended. */
  datatype Proc = Proc(pc: Pc, uv: string, python: string, fp: string, outcome: Option<ReadyState>)

  const IDLE := Proc(Prepare, "", "", "", None)
  const ENTERED := Proc(Uv, "", "", "", None)

  datatype Turn = Turn(world: World, proc: Proc, acts: seq<Act>)

  predicate Held(pc: Pc) {
    !pc.Prepare? && !pc.Acquire? && !pc.Finished?
  }

  function Stop(w: World, p: Proc, reason: Reason, fp: Option<string>): Turn {
    Turn(w, p.(pc := Record, outcome := Some(ReadyState(reason, fp))), [])
  }

  function NewMarker(stamp: string, p: Proc): Marker {
    Marker(true, Object(map["checked_at" := Str(stamp), "fingerprint" := Str(p.fp), "project_python" := Str(p.python),
                            "schema" := Num(SCHEMA as real), "state" := Str("ready"), "uv_version" := Str(p.uv)]))
  }

  function OwnStep(w: World, p: Proc, next: Pc): Turn {
    match OwnershipProblem(w)
    case Some(reason) => Stop(w, p, reason, Some(p.fp))
    case None => Turn(w, p.(pc := next), [])
  }

  predicate NoHooksDir(w: World) {
    w.hooksDir == Default(false)
  }

  /** The installer makes every seat current, or raises and leaves some of them changed; without a hooks
      directory it exits at once. */
  function InstallStep(w: World, p: Proc, c: Choice, next: Pc): Turn {
    var w' := w.(seats := c.seats);
    if NoHooksDir(w) then Turn(w, p.(pc := Finished, outcome := None), [])
    else if c.io.Ok? && AllCurrent(w.source.hooks, c.seats) then Turn(w', p.(pc := next), [HooksInstalled])
    else if c.io.Exit? then Turn(w', p.(pc := Finished, outcome := None), [])
    else Stop(w', p, HookStatusFailed, Some(p.fp))
  }

  function Print1(host: Host, w: World, p: Proc, python: string, next: Pc): Turn {
    if !w.readable then Stop(w, p, FingerprintFailed, None)
    else Turn(w, p.(pc := next, fp := host.digest(w.source, python, p.uv)), [])
  }

  predicate Inspecting(pc: Pc) {
    pc.Uv? || pc.Python? || pc.Print? || pc.Own? || pc.Fast?
  }

  /** Looking: tools, fingerprint, ownership, and whether all is well already. */
  function Inspect(host: Host, w: World, p: Proc, c: Choice): Turn
    requires Inspecting(p.pc)
  {
    match p.pc
    case Uv =>
      if Unexpected(c.io) then Stop(w, p, UnexpectedInternalError, None)
      else if !c.io.Ok? || w.uv == "" then Stop(w, p, ToolMissing, None)
      else Turn(w, p.(pc := Python, uv := w.uv), [])
    case Python =>
      if Unexpected(c.io) then Stop(w, p, UnexpectedInternalError, None)
      else Turn(w, p.(pc := Print, python := if c.io.Ok? then w.python else ""), [])
    case Print => Print1(host, w, p, if p.python != "" then p.python else host.runtimePython, Own)
    case Own => OwnStep(w, p, Fast)
    case Fast =>
      if p.python == "" then Turn(w, p.(pc := Unmark), [])
      else (match FastReady(w, p.uv, p.python, p.fp, CheckAnswer(w.synced, c.io))
            case Yes => Stop(w, p, ReadyFastPath, Some(p.fp))
            case Raises(_) => Stop(w, p, UnexpectedInternalError, None)
            case No => Turn(w, p.(pc := Unmark), []))
  }

  predicate Repairing(pc: Pc) {
    pc.Unmark? || pc.OwnA? || pc.InstallA? || pc.Sync? || pc.Prewarm? || pc.OwnB? || pc.InstallB?
  }

  /** Repairing: marker away, hooks, environment, hooks again. */
  function Repair(host: Host, w: World, p: Proc, c: Choice): Turn
    requires Repairing(p.pc)
  {
    match p.pc
    case Unmark =>
      if c.io.Ok? then Turn(w.(marker := NoMarker), p.(pc := OwnA), [Unmarked])
      else Stop(w, p, StateIoFailed, Some(p.fp))
    case OwnA => OwnStep(w, p, InstallA)
    case InstallA => InstallStep(w, p, c, Sync)
    case Sync =>
      var w' := w.(python := c.python, synced := c.synced);
      if c.io.Ok? then Turn(w', p.(pc := Prewarm), [Synced])
      else if Unexpected(c.io) then Stop(w', p, UnexpectedInternalError, None)
      else Stop(w', p, if c.io.Timeout? then SyncTimeout else SyncFailed, Some(p.fp))
    case Prewarm =>
      if c.io.Ok? then Turn(w, p.(pc := OwnB), [Prewarmed])
      else if Unexpected(c.io) then Stop(w, p, UnexpectedInternalError, None)
      else Stop(w, p, if c.io.Timeout? then PrewarmTimeout else PrewarmFailed, Some(p.fp))
    case OwnB => OwnStep(w, p, InstallB)
    case InstallB => InstallStep(w, p, c, Python2)
  }

  predicate Validating(pc: Pc) {
    pc.Python2? || pc.Print2? || pc.Check? || pc.Current? || pc.PutSentinel? || pc.PutMarker?
  }

  /** Validating what was repaired, then the sentinel and the marker. */
  function Validate(host: Host, w: World, p: Proc, c: Choice): Turn
    requires Validating(p.pc)
  {
    match p.pc
    case Python2 =>
      if Unexpected(c.io) then Stop(w, p, UnexpectedInternalError, None)
      else if c.io.Ok? && w.python != "" then Turn(w, p.(pc := Print2, python := w.python), [])
      else Stop(w, p, LockedCheckFailed, Some(p.fp))
    case Print2 => Print1(host, w, p, p.python, Check)
    case Check =>
      if Unexpected(c.io) then Stop(w, p, UnexpectedInternalError, None)
      else if c.io.Ok? && w.synced then Turn(w, p.(pc := Current), [Checked(p.fp)])
      else Stop(w, p, LockedCheckFailed, Some(p.fp))
    case Current =>
      if HooksCurrent(w) then Turn(w, p.(pc := PutSentinel), [HooksSeen])
      else Stop(w, p, HookStatusFailed, Some(p.fp))
    case PutSentinel =>
      var w' := w.(sentinels := w.sentinels[p.fp := Sentinel(true, Some(p.fp + "\n"))]);
      if c.io.Ok? then Turn(w', p.(pc := PutMarker), [SentinelWritten(p.fp)])
      else Stop(if c.io.Late? then w' else w, p, StateIoFailed, Some(p.fp))
    case PutMarker =>
      var w' := w.(marker := NewMarker(c.stamp, p));
      if c.io.Ok? then Stop(w', p, ReadyRepaired, Some(p.fp)).(acts := [MarkerWritten(p.fp)])
      else if c.io.Late? then Stop(w', p, StateIoFailed, Some(p.fp)).(acts := [MarkerWritten(p.fp)])
      else Stop(w, p, StateIoFailed, Some(p.fp))
  }

  predicate Concluding(pc: Pc) {
    pc.Record? || pc.Log? || pc.LogUnmark?
  }

  /** Recording the result; a degraded one leaves no marker if it can be helped. */
  function Conclude(host: Host, w: World, p: Proc, c: Choice): Turn
    requires Concluding(p.pc)
  {
    match p.pc
    case Record =>
      if p.outcome.Some? && IsReady(p.outcome.value.reason) then Turn(w, p.(pc := Log), [])
      else if c.io.Ok? then Turn(w.(marker := NoMarker), p.(pc := Log), [Unmarked])
      else
        var fp := if p.outcome.Some? then p.outcome.value.fingerprint else None;
        Turn(w, p.(pc := Log, outcome := Some(ReadyState(StateIoFailed, fp))), [])
    case Log =>
      if c.io.Ok? then Turn(w, p.(pc := Finished), []) else Turn(w, p.(pc := LogUnmark), [])
    case LogUnmark =>
      var p' := p.(pc := Finished, outcome := Some(ReadyState(StateIoFailed, None)));
      if c.io.Ok? then Turn(w.(marker := NoMarker), p', [Unmarked]) else Turn(w, p', [])
  }

  /** The next step of a process that holds the lock. */
  function Go(host: Host, w: World, p: Proc, c: Choice): Turn
    requires Held(p.pc)
  {
    if Inspecting(p.pc) then Inspect(host, w, p, c)
    else if Repairing(p.pc) then Repair(host, w, p, c)
    else if Validating(p.pc) then Validate(host, w, p, c)
    else Conclude(host, w, p, c)
  }

  /** Steps left at most; every step of a lock holder lowers it. */
  function Rank(pc: Pc): nat {
    match pc
    case Prepare => 24 case Acquire => 23
    case Uv => 22 case Python => 21 case Print => 20 case Own => 19 case Fast => 18
    case Unmark => 17 case OwnA => 16 case InstallA => 15 case Sync => 14 case Prewarm => 13
    case OwnB => 12 case InstallB => 11 case Python2 => 10 case Print2 => 9 case Check => 8
    case Current => 7 case PutSentinel => 6 case PutMarker => 5
    case Record => 4 case Log => 3 case LogUnmark => 2
    case Finished => 0
  }

  ghost predicate Descends(p: Proc, t: Turn) {
    Rank(t.proc.pc) < Rank(p.pc) && (Held(t.proc.pc) || t.proc.pc.Finished?)
  }

  lemma InspectDescends(host: Host, w: World, p: Proc, c: Choice)
    requires Inspecting(p.pc)
    ensures Descends(p, Inspect(host, w, p, c))
  {
  }

  lemma RepairDescends(host: Host, w: World, p: Proc, c: Choice)
    requires Repairing(p.pc)
    ensures Descends(p, Repair(host, w, p, c))
  {
  }

  lemma ValidateDescends(host: Host, w: World, p: Proc, c: Choice)
    requires Validating(p.pc)
    ensures Descends(p, Validate(host, w, p, c))
  {
  }

  lemma ConcludeDescends(host: Host, w: World, p: Proc, c: Choice)
    requires Concluding(p.pc)
    ensures Descends(p, Conclude(host, w, p, c))
  {
  }

  lemma GoDescends(host: Host, w: World, p: Proc, c: Choice)
    requires Held(p.pc)
    ensures Descends(p, Go(host, w, p, c))
  {
    if Inspecting(p.pc) { InspectDescends(host, w, p, c); }
    else if Repairing(p.pc) { RepairDescends(host, w, p, c); }
    else if Validating(p.pc) { ValidateDescends(host, w, p, c); }
    else { ConcludeDescends(host, w, p, c); }
  }

  /** The outside's answers for one call, step by step. */
  type Script = Pc -> Choice

  datatype Result = Result(world: World, outcome: Option<ReadyState>)

  /** A lock holder runs to its end with nobody interfering. */
  function RunHeld(host: Host, w: World, p: Proc, io: Script): Result
    requires Held(p.pc) || p.pc.Finished?
    decreases Rank(p.pc)
  {
    if p.pc.Finished? then Result(w, p.outcome)
    else
      var t := Go(host, w, p, io(p.pc));
      GoDescends(host, w, p, io(p.pc));
      RunHeld(host, t.world, t.proc, io)
  }

  /** One turn does not change where the run ends. */
  lemma Advance(host: Host, w: World, p: Proc, io: Script, w': World, p': Proc)
    requires Held(p.pc)
    requires Go(host, w, p, io(p.pc)).world == w' && Go(host, w, p, io(p.pc)).proc == p'
    ensures Held(p'.pc) || p'.pc.Finished?
    ensures RunHeld(host, w, p, io) == RunHeld(host, w', p', io)
  {
    GoDescends(host, w, p, io(p.pc));
  }

  /** `ensure_workspace_ready`. An outcome of None means that SystemExit went through. */
  function Ensure(host: Host, w: World, io: Script): Result {
    if !w.valid then Result(w, Some(ReadyState(InvalidWorkspace, None)))
    else if w.paths.Linked? || !io(Prepare).io.Ok? then Result(w, Some(ReadyState(StateIoFailed, None)))
    else
      var w := w.(paths := InOrder);
      if io(Acquire).io.Timeout? then Result(w, Some(ReadyState(LockTimeout, None)))
      else if io(Acquire).io.Raise? then Result(w, Some(ReadyState(UnexpectedInternalError, None)))
      else if !io(Acquire).io.Ok? then Result(w, Some(ReadyState(StateIoFailed, None)))
      else RunHeld(host, w, ENTERED, io)
  }

  /** The call gets to take the lock. */
  predicate Admitted(w: World, io: Script) {
    w.valid && !w.paths.Linked? && io(Prepare).io.Ok? && io(Acquire).io.Ok?
  }

  lemma EnsureSplits(host: Host, w: World, io: Script)
    ensures Admitted(w, io) ==> Ensure(host, w, io) == RunHeld(host, w.(paths := InOrder), ENTERED, io)
    ensures !Admitted(w, io) ==>
              var r := Ensure(host, w, io);
              r.outcome.Some? && !IsReady(r.outcome.value.reason) && r.world.(paths := w.paths) == w
  {
  }

  /** `check_workspace_ready`: looks, and changes nothing. */
  function CheckReady(host: Host, w: World, io: Script): ReadyState {
    if !w.valid then ReadyState(InvalidWorkspace, None)
    else if OwnershipProblem(w).Some? then ReadyState(OwnershipProblem(w).value, None)
    else if w.paths.Linked? then ReadyState(StateIoFailed, None)
    else if w.paths.OutOfOrder? then ReadyState(LockedCheckFailed, None)
    else if Unexpected(io(Uv).io) then Escaped(io(Uv).io.OsError?)
    else if !io(Uv).io.Ok? || w.uv == "" then ReadyState(ToolMissing, None)
    else if Unexpected(io(Python).io) then Escaped(io(Python).io.OsError?)
    else if !io(Python).io.Ok? || w.python == "" then ReadyState(LockedCheckFailed, None)
    else if !w.readable then ReadyState(FingerprintFailed, None)
    else
      var fp := host.digest(w.source, w.python, w.uv);
      match FastReady(w, w.uv, w.python, fp, CheckAnswer(w.synced, io(Fast).io))
      case Yes => ReadyState(ReadyFastPath, Some(fp))
      case Raises(os) => Escaped(os)
      case No => ReadyState(LockedCheckFailed, Some(fp))
  }

  /** What `check` makes of an exception that nothing inside it expects. */
  function Escaped(os: bool): ReadyState {
    ReadyState(if os then StateIoFailed else UnexpectedInternalError, None)
  }
}
