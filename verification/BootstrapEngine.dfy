/** The engine as it runs: one call of `ensure`, changing the workspace step by step. Its
    specification is the undisturbed run of the lock holder. */
module BootstrapEngine {
  import opened Basics
  import opened Bootstrap
  import BootstrapReady
  import BootstrapEscape

  class Workspace {
    var world: World

    constructor (world: World)
      ensures this.world == world
    {
      this.world := world;
    }

    method RemoveMarker(io: Io) returns (ok: bool)
      modifies this
      ensures ok == io.Ok?
      ensures world == if ok then old(world).(marker := NoMarker) else old(world)
    {
      if !io.Ok? {
        return false;
      }
      world := world.(marker := NoMarker);
      return true;
    }

    /** uv and the interpreter. */
    method InspectTools(host: Host, io: Script) returns (p: Proc)
      ensures p.pc.Print? || (p.pc.Record? && p.outcome.Some?)
      ensures RunHeld(host, world, p, io) == RunHeld(host, world, ENTERED, io)
    {
      p := ENTERED;
      if Unexpected(io(Uv).io) {
        p := Stop(world, p, UnexpectedInternalError, None).proc;
        Advance(host, world, ENTERED, io, world, p);
        return;
      }
      if !io(Uv).io.Ok? || world.uv == "" {
        p := Stop(world, p, ToolMissing, None).proc;
        Advance(host, world, ENTERED, io, world, p);
        return;
      }
      p := p.(pc := Python, uv := world.uv);
      Advance(host, world, ENTERED, io, world, p);
      ghost var p0 := p;
      p := if Unexpected(io(Python).io) then Stop(world, p, UnexpectedInternalError, None).proc
           else p.(pc := Print, python := if io(Python).io.Ok? then world.python else "");
      Advance(host, world, p0, io, world, p);
    }

    /** The fingerprint and who owns the hooks. */
    method InspectFiles(host: Host, start: Proc, io: Script) returns (p: Proc)
      requires start.pc.Print?
      ensures p.pc.Fast? || (p.pc.Record? && p.outcome.Some?)
      ensures RunHeld(host, world, p, io) == RunHeld(host, world, start, io)
    {
      if !world.readable {
        p := Stop(world, start, FingerprintFailed, None).proc;
        Advance(host, world, start, io, world, p);
        return;
      }
      var python := if start.python != "" then start.python else host.runtimePython;
      p := start.(pc := Own, fp := host.digest(world.source, python, start.uv));
      Advance(host, world, start, io, world, p);
      ghost var p0 := p;
      var problem := OwnershipProblem(world);
      p := if problem.Some? then Stop(world, p, problem.value, Some(p.fp)).proc else p.(pc := Fast);
      Advance(host, world, p0, io, world, p);
    }

    /** From taking the lock to the decision whether anything has to be done. */
    method InspectState(host: Host, io: Script) returns (p: Proc)
      ensures p.pc.Unmark? || (p.pc.Record? && p.outcome.Some?)
      ensures RunHeld(host, world, p, io) == RunHeld(host, world, ENTERED, io)
    {
      p := InspectTools(host, io);
      if p.pc.Print? {
        p := InspectFiles(host, p, io);
      }
      if p.pc.Fast? {
        p := TryFastPath(host, p, io);
      }
    }

    method TryFastPath(host: Host, start: Proc, io: Script) returns (p: Proc)
      requires start.pc.Fast?
      ensures p.pc.Unmark? || (p.pc.Record? && p.outcome.Some?)
      ensures RunHeld(host, world, p, io) == RunHeld(host, world, start, io)
      ensures p.pc.Record? && IsReady(p.outcome.value.reason) ==>
                HooksCurrent(world) && world.synced && MarkerMatches(world.marker, start.fp, start.python, start.uv).Yes?
                && SentinelMatches(world, start.fp).Yes?
    {
      p := start.(pc := Unmark);
      if start.python != "" {
        var answer := FastReady(world, start.uv, start.python, start.fp, CheckAnswer(world.synced, io(Fast).io));
        if answer.Yes? {
          p := Stop(world, start, ReadyFastPath, Some(start.fp)).proc;
        } else if answer.Raises? {
          p := Stop(world, start, UnexpectedInternalError, None).proc;
        }
      }
      Advance(host, world, start, io, world, p);
    }

    /** The ownership check with the installation after it, as it stands before and after the sync. */
    method ManageHooks(host: Host, start: Proc, io: Script) returns (p: Proc)
      requires start.pc.OwnA? || start.pc.OwnB?
      modifies this
      ensures p.pc == (if start.pc.OwnA? then Sync else Python2)
              || (p.pc.Record? && p.outcome.Some?) || (p.pc.Finished? && p.outcome.None?)
      ensures RunHeld(host, world, p, io) == RunHeld(host, old(world), start, io)
    {
      var problem := OwnershipProblem(world);
      if problem.Some? {
        p := Stop(world, start, problem.value, Some(start.fp)).proc;
        Advance(host, world, start, io, world, p);
        return;
      }
      p := start.(pc := if start.pc.OwnA? then InstallA else InstallB);
      Advance(host, world, start, io, world, p);
      p := InstallHooks(host, p, io);
    }

    /** The installer leaves the seats as it likes; only when all are current does the process go on. */
    method InstallHooks(host: Host, start: Proc, io: Script) returns (p: Proc)
      requires start.pc.InstallA? || start.pc.InstallB?
      modifies this
      ensures world == if NoHooksDir(old(world)) then old(world) else old(world).(seats := io(start.pc).seats)
      ensures p.pc == (if start.pc.InstallA? then Sync else Python2)
              || (p.pc.Record? && p.outcome.Some?) || (p.pc.Finished? && p.outcome.None?)
      ensures RunHeld(host, world, p, io) == RunHeld(host, old(world), start, io)
      ensures p.pc.Sync? || p.pc.Python2?
              <==> !NoHooksDir(world) && io(start.pc).io.Ok? && AllCurrent(world.source.hooks, world.seats)
    {
      var c := io(start.pc);
      if NoHooksDir(world) {
        p := start.(pc := Finished, outcome := None);
        Advance(host, world, start, io, world, p);
        return;
      }
      world := world.(seats := c.seats);
      if c.io.Ok? && AllCurrent(world.source.hooks, c.seats) {
        p := start.(pc := if start.pc.InstallA? then Sync else Python2);
      } else if c.io.Exit? {
        p := start.(pc := Finished, outcome := None);
      } else {
        p := Stop(world, start, HookStatusFailed, Some(start.fp)).proc;
      }
      Advance(host, old(world), start, io, world, p);
    }

    /** Marker away, hooks, environment, warm caches, hooks again. */
    method RepairState(host: Host, start: Proc, io: Script) returns (p: Proc)
      requires start.pc.Unmark?
      modifies this
      ensures p.pc.Python2? || (p.pc.Record? && p.outcome.Some?) || (p.pc.Finished? && p.outcome.None?)
      ensures RunHeld(host, world, p, io) == RunHeld(host, old(world), start, io)
    {
      var removed := RemoveMarker(io(Unmark).io);
      p := if removed then start.(pc := OwnA) else Stop(world, start, StateIoFailed, Some(start.fp)).proc;
      Advance(host, old(world), start, io, world, p);
      if p.pc.OwnA? {
        p := ManageHooks(host, p, io);
      }
      if p.pc.Sync? {
        p := SyncAndWarm(host, p, io);
      }
      if p.pc.OwnB? {
        p := ManageHooks(host, p, io);
      }
    }

    method SyncAndWarm(host: Host, start: Proc, io: Script) returns (p: Proc)
      requires start.pc.Sync?
      modifies this
      ensures p.pc.OwnB? || (p.pc.Record? && p.outcome.Some?)
      ensures RunHeld(host, world, p, io) == RunHeld(host, old(world), start, io)
    {
      var c := io(Sync);
      world := world.(python := c.python, synced := c.synced);
      if !c.io.Ok? {
        p := if Unexpected(c.io) then Stop(world, start, UnexpectedInternalError, None).proc
             else Stop(world, start, if c.io.Timeout? then SyncTimeout else SyncFailed, Some(start.fp)).proc;
        Advance(host, old(world), start, io, world, p);
        return;
      }
      p := start.(pc := Prewarm);
      Advance(host, old(world), start, io, world, p);
      ghost var p0 := p;
      c := io(Prewarm);
      if c.io.Ok? {
        p := p.(pc := OwnB);
      } else {
        p := if Unexpected(c.io) then Stop(world, p, UnexpectedInternalError, None).proc
             else Stop(world, p, if c.io.Timeout? then PrewarmTimeout else PrewarmFailed, Some(p.fp)).proc;
      }
      Advance(host, world, p0, io, world, p);
    }

    /** The interpreter and the fingerprint once more, for the environment as it is now. */
    method LookAgain(host: Host, start: Proc, io: Script) returns (p: Proc)
      requires start.pc.Python2?
      ensures p.pc.Check? || (p.pc.Record? && p.outcome.Some?)
      ensures RunHeld(host, world, p, io) == RunHeld(host, world, start, io)
      ensures p.pc.Check? ==> p.uv == start.uv && p.python == world.python && p.python != ""
                              && p.fp == host.digest(world.source, p.python, p.uv)
      ensures p.pc.Record? ==> !IsReady(p.outcome.value.reason)
    {
      if !io(Python2).io.Ok? || world.python == "" {
        p := if Unexpected(io(Python2).io) then Stop(world, start, UnexpectedInternalError, None).proc
             else Stop(world, start, LockedCheckFailed, Some(start.fp)).proc;
        Advance(host, world, start, io, world, p);
        return;
      }
      p := start.(pc := Print2, python := world.python);
      Advance(host, world, start, io, world, p);
      ghost var p0 := p;
      p := if world.readable then p.(pc := Check, fp := host.digest(world.source, p.python, p.uv))
           else Stop(world, p, FingerprintFailed, None).proc;
      Advance(host, world, p0, io, world, p);
    }

    /** The locked check and the hooks. */
    method CheckResult(host: Host, start: Proc, io: Script) returns (p: Proc)
      requires start.pc.Check?
      ensures p.pc.PutSentinel? || (p.pc.Record? && p.outcome.Some?)
      ensures RunHeld(host, world, p, io) == RunHeld(host, world, start, io)
      ensures p.pc.PutSentinel? ==> p == start.(pc := PutSentinel) && world.synced && HooksCurrent(world)
      ensures p.pc.Record? ==> !IsReady(p.outcome.value.reason)
    {
      if !io(Check).io.Ok? || !world.synced {
        p := if Unexpected(io(Check).io) then Stop(world, start, UnexpectedInternalError, None).proc
             else Stop(world, start, LockedCheckFailed, Some(start.fp)).proc;
        Advance(host, world, start, io, world, p);
        return;
      }
      p := start.(pc := Current);
      Advance(host, world, start, io, world, p);
      ghost var p0 := p;
      p := if HooksCurrent(world) then p.(pc := PutSentinel) else Stop(world, p, HookStatusFailed, Some(p.fp)).proc;
      Advance(host, world, p0, io, world, p);
    }

    /** Second look, then the sentinel and the marker. */
    method ValidateState(host: Host, start: Proc, io: Script) returns (p: Proc)
      requires start.pc.Python2?
      modifies this
      ensures p.pc.Record? && p.outcome.Some?
      ensures RunHeld(host, world, p, io) == RunHeld(host, old(world), start, io)
      ensures IsReady(p.outcome.value.reason) ==>
                var fp := host.digest(world.source, world.python, start.uv);
                && p.outcome.value == ReadyState(ReadyRepaired, Some(fp))
                && world.synced && HooksCurrent(world) && SentinelMatches(world, fp).Yes?
                && MarkerMatches(world.marker, fp, world.python, start.uv).Yes?
    {
      p := LookAgain(host, start, io);
      if p.pc.Check? {
        p := CheckResult(host, p, io);
      }
      if p.pc.PutSentinel? {
        p := WriteSentinelAndMarker(host, p, io);
      }
    }

    method WriteSentinelAndMarker(host: Host, start: Proc, io: Script) returns (p: Proc)
      requires start.pc.PutSentinel?
      modifies this
      ensures p.pc.Record? && p.outcome.Some?
      ensures RunHeld(host, world, p, io) == RunHeld(host, old(world), start, io)
      ensures world == old(world).(marker := world.marker, sentinels := world.sentinels)
      ensures IsReady(p.outcome.value.reason) ==>
                p.outcome.value == ReadyState(ReadyRepaired, Some(start.fp)) && SentinelMatches(world, start.fp).Yes?
                && MarkerMatches(world.marker, start.fp, start.python, start.uv).Yes?
    {
      if io(PutSentinel).io.Ok? || io(PutSentinel).io.Late? {
        world := world.(sentinels := world.sentinels[start.fp := Sentinel(true, Some(start.fp + "\n"))]);
      }
      p := if io(PutSentinel).io.Ok? then start.(pc := PutMarker)
           else Stop(world, start, StateIoFailed, Some(start.fp)).proc;
      Advance(host, old(world), start, io, world, p);
      if p.pc.PutMarker? {
        p := WriteMarker(host, p, io);
      }
    }

    method WriteMarker(host: Host, start: Proc, io: Script) returns (p: Proc)
      requires start.pc.PutMarker?
      modifies this
      ensures p.pc.Record? && p.outcome.Some?
      ensures RunHeld(host, world, p, io) == RunHeld(host, old(world), start, io)
      ensures world == old(world).(marker := world.marker)
      ensures IsReady(p.outcome.value.reason) ==>
                p.outcome.value == ReadyState(ReadyRepaired, Some(start.fp))
                && MarkerMatches(world.marker, start.fp, start.python, start.uv).Yes?
    {
      if io(PutMarker).io.Ok? || io(PutMarker).io.Late? {
        world := world.(marker := NewMarker(io(PutMarker).stamp, start));
        BootstrapReady.NewMarkerMatches(io(PutMarker).stamp, start);
      }
      p := start.(pc := Record, outcome := Some(ReadyState(
        if io(PutMarker).io.Ok? then ReadyRepaired else StateIoFailed, Some(start.fp))));
      Advance(host, old(world), start, io, world, p);
    }

    /** `_record_locked`. */
    method RecordLocked(host: Host, start: Proc, io: Script) returns (state: ReadyState)
      requires start.pc.Record? && start.outcome.Some?
      modifies this
      ensures Result(world, Some(state)) == RunHeld(host, old(world), start, io)
      ensures !IsReady(state.reason) ==>
                (world.marker != NoMarker <==> old(world).marker != NoMarker && BootstrapReady.UnlinksFail(start, io))
    {
      BootstrapReady.RecordLeavesMarkerIff(host, world, start, io);
      state := start.outcome.value;
      if !IsReady(state.reason) {
        var removed := RemoveMarker(io(Record).io);
        if !removed {
          state := ReadyState(StateIoFailed, state.fingerprint);
        }
      }
      ghost var p := start.(pc := Log, outcome := Some(state));
      Advance(host, old(world), start, io, world, p);
      state := AppendLog(host, p, state, io);
    }

    /** The log line; when it cannot be written, the marker goes as well. */
    method AppendLog(host: Host, ghost p: Proc, state: ReadyState, io: Script) returns (state': ReadyState)
      requires p.pc.Log? && p.outcome == Some(state)
      modifies this
      ensures Result(world, Some(state')) == RunHeld(host, old(world), p, io)
    {
      state' := state;
      if io(Log).io.Ok? {
        Advance(host, world, p, io, world, p.(pc := Finished));
        return;
      }
      ghost var p0 := p.(pc := LogUnmark);
      Advance(host, world, p, io, world, p0);
      var _ := RemoveMarker(io(LogUnmark).io);
      state' := ReadyState(StateIoFailed, None);
      Advance(host, old(world), p0, io, world, p.(pc := Finished, outcome := Some(state')));
    }

    /** None: SystemExit from the hook installer goes through to the caller. */
    method EnsureWorkspaceReady(host: Host, io: Script) returns (state: Option<ReadyState>)
      modifies this
      ensures Result(world, state) == Ensure(host, old(world), io)
      ensures BootstrapReady.ReadyIsHealthy(host, world, state)
      ensures state.None? ==> world.marker.NoMarker? && (NoHooksDir(old(world)) || io(InstallA).io.Exit? || io(InstallB).io.Exit?)
      ensures state.Some? && !IsReady(state.value.reason) && BootstrapEscape.RemovalsWork(io) ==>
                world.marker.NoMarker? || (!Admitted(old(world), io) && world.marker == old(world).marker)
    {
      BootstrapReady.ReadyMeansHealthy(host, world, io);
      BootstrapEscape.EscapesIff(host, world, io);
      BootstrapEscape.DegradedLeavesNoMarker(host, world, io);
      if !world.valid {
        return Some(ReadyState(InvalidWorkspace, None));
      }
      if world.paths.Linked? || !io(Prepare).io.Ok? {
        return Some(ReadyState(StateIoFailed, None));
      }
      world := world.(paths := InOrder);
      if io(Acquire).io.Timeout? {
        return Some(ReadyState(LockTimeout, None));
      }
      if io(Acquire).io.Raise? {
        return Some(ReadyState(UnexpectedInternalError, None));
      }
      if !io(Acquire).io.Ok? {
        return Some(ReadyState(StateIoFailed, None));
      }
      var p := InspectState(host, io);
      if p.pc.Unmark? {
        p := RepairState(host, p, io);
      }
      if p.pc.Python2? {
        p := ValidateState(host, p, io);
      }
      if p.pc.Finished? {
        return None;
      }
      var r := RecordLocked(host, p, io);
      state := Some(r);
    }

    method CheckWorkspaceReady(host: Host, io: Script) returns (state: ReadyState)
      ensures state == CheckReady(host, world, io)
      ensures BootstrapReady.ReadyIsHealthy(host, world, Some(state))
      ensures BootstrapReady.NothingFails(io) ==>
                forall fp :: state == ReadyState(ReadyFastPath, Some(fp))
                             <==> world.valid && world.paths.InOrder? && BootstrapReady.Healthy(host, world, fp)
    {
      BootstrapReady.CheckMeansHealthy(host, world, io);
      forall fp ensures BootstrapReady.NothingFails(io) ==>
                          (CheckReady(host, world, io) == ReadyState(ReadyFastPath, Some(fp))
                           <==> world.valid && world.paths.InOrder? && BootstrapReady.Healthy(host, world, fp))
      {
        if BootstrapReady.NothingFails(io) { BootstrapReady.CheckIsReadyIff(host, world, io, fp); }
      }
      if !world.valid {
        return ReadyState(InvalidWorkspace, None);
      }
      var problem := OwnershipProblem(world);
      if problem.Some? {
        return ReadyState(problem.value, None);
      }
      if world.paths.Linked? {
        return ReadyState(StateIoFailed, None);
      }
      if world.paths.OutOfOrder? {
        return ReadyState(LockedCheckFailed, None);
      }
      if Unexpected(io(Uv).io) {
        return Escaped(io(Uv).io.OsError?);
      }
      if !io(Uv).io.Ok? || world.uv == "" {
        return ReadyState(ToolMissing, None);
      }
      if Unexpected(io(Python).io) {
        return Escaped(io(Python).io.OsError?);
      }
      if !io(Python).io.Ok? || world.python == "" {
        return ReadyState(LockedCheckFailed, None);
      }
      if !world.readable {
        return ReadyState(FingerprintFailed, None);
      }
      var fp := host.digest(world.source, world.python, world.uv);
      var answer := FastReady(world, world.uv, world.python, fp, CheckAnswer(world.synced, io(Fast).io));
      match answer
      case Yes => state := ReadyState(ReadyFastPath, Some(fp));
      case Raises(os) => state := Escaped(os);
      case No => state := ReadyState(LockedCheckFailed, Some(fp));
    }
  }
}
