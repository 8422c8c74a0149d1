/** How a call ends without a typed result, and what every other call leaves behind. */
module BootstrapEscape {
  import opened Basics
  import opened Fingerprints
  import opened Bootstrap
  import opened BootstrapReady

  /** An ordinary call always ends with a typed result; only SystemExit from the installer gets
      through, and then the marker is gone already. */
  lemma {:induction false} OnlyTheInstallerEscapes(host: Host, w: World, p: Proc, io: Script)
    requires Held(p.pc) && (Rank(p.pc) <= Rank(Record) ==> p.outcome.Some?)
    requires FromUnmarkOn(p.pc) ==> w.marker.NoMarker?
    ensures RunHeld(host, w, p, io).outcome.None? ==>
              && (NoHooksDir(w) || io(InstallA).io.Exit? || io(InstallB).io.Exit?)
              && RunHeld(host, w, p, io).world.marker.NoMarker?
    decreases Rank(p.pc)
  {
    var t := EscapeTurn(host, w, p, io);
    if !t.proc.pc.Finished? {
      OnlyTheInstallerEscapes(host, t.world, t.proc, io);
    }
  }

  /** The next turn, with what it keeps. */
  lemma EscapeTurn(host: Host, w: World, p: Proc, io: Script) returns (t: Turn)
    requires Held(p.pc) && (Rank(p.pc) <= Rank(Record) ==> p.outcome.Some?)
    requires FromUnmarkOn(p.pc) ==> w.marker.NoMarker?
    ensures Descends(p, t) && EscapesRightly(w, p, io(p.pc), t)
    ensures RunHeld(host, w, p, io) == RunHeld(host, t.world, t.proc, io)
  {
    t := Go(host, w, p, io(p.pc));
    GoDescends(host, w, p, io(p.pc));
    if Inspecting(p.pc) {
      InspectionEscape(host, w, p, io(p.pc));
    } else if Repairing(p.pc) {
      RepairEscape(host, w, p, io(p.pc));
    } else if Validating(p.pc) {
      ValidationEscape(host, w, p, io(p.pc));
    } else {
      LateEscape(host, w, p, io(p.pc));
    }
  }

  /** Between removing the marker and writing it again. */
  ghost predicate FromUnmarkOn(pc: Pc) {
    Rank(PutMarker) <= Rank(pc) <= Rank(OwnA)
  }

  /** One turn keeps this, and only an installer can end a call without an outcome. */
  ghost predicate EscapesRightly(w: World, p: Proc, c: Choice, t: Turn) {
    && t.world.hooksDir == w.hooksDir
    && (FromUnmarkOn(t.proc.pc) ==> t.world.marker.NoMarker?)
    && (Held(t.proc.pc) && Rank(t.proc.pc) <= Rank(Record) ==> t.proc.outcome.Some?)
    && (t.proc.pc.Finished? && t.proc.outcome.None? ==>
          (p.pc.InstallA? || p.pc.InstallB?) && (NoHooksDir(w) || c.io.Exit?) && t.world.marker.NoMarker?)
  }

  lemma InspectionEscape(host: Host, w: World, p: Proc, c: Choice)
    requires Inspecting(p.pc)
    ensures EscapesRightly(w, p, c, Inspect(host, w, p, c))
  {
  }

  lemma RepairEscape(host: Host, w: World, p: Proc, c: Choice)
    requires Repairing(p.pc) && (FromUnmarkOn(p.pc) ==> w.marker.NoMarker?)
    ensures EscapesRightly(w, p, c, Repair(host, w, p, c))
  {
  }

  lemma ValidationEscape(host: Host, w: World, p: Proc, c: Choice)
    requires Validating(p.pc) && w.marker.NoMarker?
    ensures EscapesRightly(w, p, c, Validate(host, w, p, c))
  {
  }

  lemma LateEscape(host: Host, w: World, p: Proc, c: Choice)
    requires Concluding(p.pc) && p.outcome.Some?
    ensures EscapesRightly(w, p, c, Conclude(host, w, p, c))
  {
  }

  // ---- Exactly when ------------------------------------------------------------------------------

  lemma {:induction false} LaterIsTyped(host: Host, w: World, p: Proc, io: Script)
    requires Validating(p.pc) || (Concluding(p.pc) && p.outcome.Some?)
    ensures RunHeld(host, w, p, io).outcome.Some?
    decreases Rank(p.pc)
  {
    var t := LaterTurn(host, w, p, io);
    if !t.proc.pc.Finished? {
      LaterIsTyped(host, t.world, t.proc, io);
    }
  }

  lemma LaterTurn(host: Host, w: World, p: Proc, io: Script) returns (t: Turn)
    requires Validating(p.pc) || (Concluding(p.pc) && p.outcome.Some?)
    ensures Descends(p, t) && RunHeld(host, w, p, io) == RunHeld(host, t.world, t.proc, io)
    ensures Validating(t.proc.pc) || ((Concluding(t.proc.pc) || t.proc.pc.Finished?) && t.proc.outcome.Some?)
  {
    t := Go(host, w, p, io(p.pc));
    GoDescends(host, w, p, io(p.pc));
    if Validating(p.pc) { ValidationGoesOn(host, w, p, io(p.pc)); }
  }

  lemma ValidationGoesOn(host: Host, w: World, p: Proc, c: Choice)
    requires Validating(p.pc)
    ensures var q := Validate(host, w, p, c).proc;
            Validating(q.pc) || (Concluding(q.pc) && q.outcome.Some?)
  {
  }

  /** A step that stops leads to a typed result. */
  lemma StopIsTyped(host: Host, w: World, p: Proc, io: Script, w': World, reason: Reason, fp: Option<string>)
    requires Held(p.pc) && Go(host, w, p, io(p.pc)).world == w' && Go(host, w, p, io(p.pc)).proc == Stop(w', p, reason, fp).proc
    ensures RunHeld(host, w, p, io).outcome.Some?
  {
    var q := Stop(w', p, reason, fp).proc;
    Advance(host, w, p, io, w', q);
    LaterIsTyped(host, w', q, io);
  }

  /** What the first look finds of the interpreter, and the fingerprint it leads to. */
  ghost function SeenPython(w: World, io: Script): string {
    if io(Python).io.Ok? then w.python else ""
  }

  ghost function SeenPrint(host: Host, w: World, io: Script): string {
    host.digest(w.source, if SeenPython(w, io) != "" then SeenPython(w, io) else host.runtimePython, w.uv)
  }

  ghost predicate ToolsSeen(w: World, io: Script) {
    io(Uv).io.Ok? && w.uv != "" && !Unexpected(io(Python).io)
  }

  ghost predicate FastSaysNo(host: Host, w: World, io: Script) {
    || SeenPython(w, io) == ""
    || FastReady(w, w.uv, SeenPython(w, io), SeenPrint(host, w, io), CheckAnswer(w.synced, io(Fast).io)).No?
  }

  ghost predicate Escapes(host: Host, w: World, p: Proc, io: Script)
    requires Held(p.pc)
  {
    RunHeld(host, w, p, io).outcome.None?
  }

  lemma ToolsEscape(host: Host, w: World, io: Script)
    ensures Escapes(host, w, ENTERED, io)
            <==> ToolsSeen(w, io) && Escapes(host, w, Proc(Print, w.uv, SeenPython(w, io), "", None), io)
  {
    if Unexpected(io(Uv).io) {
      StopIsTyped(host, w, ENTERED, io, w, UnexpectedInternalError, None);
    } else if !io(Uv).io.Ok? || w.uv == "" {
      StopIsTyped(host, w, ENTERED, io, w, ToolMissing, None);
    } else {
      var p := ENTERED.(pc := Python, uv := w.uv);
      Advance(host, w, ENTERED, io, w, p);
      PythonEscapes(host, w, p, io);
    }
  }

  lemma PythonEscapes(host: Host, w: World, p: Proc, io: Script)
    requires p.pc.Python?
    ensures Escapes(host, w, p, io)
            <==> !Unexpected(io(Python).io) && Escapes(host, w, p.(pc := Print, python := SeenPython(w, io)), io)
  {
    if Unexpected(io(Python).io) {
      StopIsTyped(host, w, p, io, w, UnexpectedInternalError, None);
    } else {
      Advance(host, w, p, io, w, p.(pc := Print, python := SeenPython(w, io)));
    }
  }

  lemma LookEscapes(host: Host, w: World, p: Proc, io: Script)
    requires p.pc.Print? && p.uv == w.uv && p.python == SeenPython(w, io)
    ensures Escapes(host, w, p, io)
            <==> w.readable && OwnershipProblem(w).None?
                 && Escapes(host, w, p.(pc := Fast, fp := SeenPrint(host, w, io)), io)
  {
    if !w.readable {
      StopIsTyped(host, w, p, io, w, FingerprintFailed, None);
    } else {
      var q := p.(pc := Own, fp := SeenPrint(host, w, io));
      Advance(host, w, p, io, w, q);
      OwnerEscapes(host, w, q, io, Fast);
    }
  }

  lemma OwnerEscapes(host: Host, w: World, p: Proc, io: Script, next: Pc)
    requires (p.pc.Own? && next == Fast) || (p.pc.OwnA? && next == InstallA) || (p.pc.OwnB? && next == InstallB)
    ensures Escapes(host, w, p, io) <==> OwnershipProblem(w).None? && Escapes(host, w, p.(pc := next), io)
  {
    if OwnershipProblem(w).Some? {
      StopIsTyped(host, w, p, io, w, OwnershipProblem(w).value, Some(p.fp));
    } else {
      Advance(host, w, p, io, w, p.(pc := next));
    }
  }

  lemma FastEscapes(host: Host, w: World, p: Proc, io: Script)
    requires p.pc.Fast? && p.uv == w.uv && p.python == SeenPython(w, io) && p.fp == SeenPrint(host, w, io)
    ensures Escapes(host, w, p, io) <==> FastSaysNo(host, w, io) && Escapes(host, w, p.(pc := Unmark), io)
  {
    if FastSaysNo(host, w, io) {
      Advance(host, w, p, io, w, p.(pc := Unmark));
    } else if FastReady(w, p.uv, p.python, p.fp, CheckAnswer(w.synced, io(Fast).io)).Yes? {
      StopIsTyped(host, w, p, io, w, ReadyFastPath, Some(p.fp));
    } else {
      StopIsTyped(host, w, p, io, w, UnexpectedInternalError, None);
    }
  }

  lemma UnmarkEscapes(host: Host, w: World, p: Proc, io: Script)
    requires p.pc.Unmark?
    ensures Escapes(host, w, p, io)
            <==> io(Unmark).io.Ok? && Escapes(host, w.(marker := NoMarker), p.(pc := OwnA), io)
  {
    if io(Unmark).io.Ok? {
      Advance(host, w, p, io, w.(marker := NoMarker), p.(pc := OwnA));
    } else {
      StopIsTyped(host, w, p, io, w, StateIoFailed, Some(p.fp));
    }
  }

  /** The installer makes every hook current. */
  ghost predicate Installs(w: World, c: Choice) {
    !NoHooksDir(w) && c.io.Ok? && AllCurrent(w.source.hooks, c.seats)
  }

  /** The installer exits: there is no directory to install into, or it exits for a reason of its own. */
  ghost predicate InstallExits(w: World, c: Choice) {
    NoHooksDir(w) || c.io.Exit?
  }

  lemma InstallEscapes(host: Host, w: World, p: Proc, io: Script, next: Pc)
    requires (p.pc.InstallA? && next == Sync) || (p.pc.InstallB? && next == Python2)
    ensures Escapes(host, w, p, io)
            <==> InstallExits(w, io(p.pc))
                 || (Installs(w, io(p.pc)) && Escapes(host, w.(seats := io(p.pc).seats), p.(pc := next), io))
  {
    var c := io(p.pc);
    var w' := w.(seats := c.seats);
    if NoHooksDir(w) {
      Advance(host, w, p, io, w, p.(pc := Finished, outcome := None));
    } else if Installs(w, c) {
      Advance(host, w, p, io, w', p.(pc := next));
    } else if c.io.Exit? {
      Advance(host, w, p, io, w', p.(pc := Finished, outcome := None));
    } else {
      StopIsTyped(host, w, p, io, w', HookStatusFailed, Some(p.fp));
    }
  }

  lemma SyncEscapes(host: Host, w: World, p: Proc, io: Script)
    requires p.pc.Sync?
    ensures Escapes(host, w, p, io)
            <==> io(Sync).io.Ok?
                 && Escapes(host, w.(python := io(Sync).python, synced := io(Sync).synced), p.(pc := Prewarm), io)
  {
    var c := io(Sync).io;
    var w' := w.(python := io(Sync).python, synced := io(Sync).synced);
    if c.Ok? {
      Advance(host, w, p, io, w', p.(pc := Prewarm));
    } else if Unexpected(c) {
      StopIsTyped(host, w, p, io, w', UnexpectedInternalError, None);
    } else {
      StopIsTyped(host, w, p, io, w', if c.Timeout? then SyncTimeout else SyncFailed, Some(p.fp));
    }
  }

  lemma PrewarmEscapes(host: Host, w: World, p: Proc, io: Script)
    requires p.pc.Prewarm?
    ensures Escapes(host, w, p, io) <==> io(Prewarm).io.Ok? && Escapes(host, w, p.(pc := OwnB), io)
  {
    var c := io(Prewarm).io;
    if c.Ok? {
      Advance(host, w, p, io, w, p.(pc := OwnB));
    } else if Unexpected(c) {
      StopIsTyped(host, w, p, io, w, UnexpectedInternalError, None);
    } else {
      StopIsTyped(host, w, p, io, w, if c.Timeout? then PrewarmTimeout else PrewarmFailed, Some(p.fp));
    }
  }

  /** The process gets to the first installation. */
  ghost predicate ReachesInstall(host: Host, w: World, io: Script) {
    && ToolsSeen(w, io) && w.readable && OwnershipProblem(w).None?
    && FastSaysNo(host, w, io) && io(Unmark).io.Ok?
  }

  /** And from there to the second one. */
  ghost predicate ReachesSecond(w: World, io: Script) {
    && Installs(w, io(InstallA)) && io(Sync).io.Ok? && io(Prewarm).io.Ok?
    && OwnershipProblem(w.(seats := io(InstallA).seats)).None?
  }

  lemma InstallationEscapes(host: Host, w: World, p: Proc, io: Script)
    requires p.pc.InstallA?
    ensures Escapes(host, w, p, io) <==> InstallExits(w, io(InstallA)) || (ReachesSecond(w, io) && io(InstallB).io.Exit?)
  {
    InstallEscapes(host, w, p, io, Sync);
    if Installs(w, io(InstallA)) {
      var w1 := w.(seats := io(InstallA).seats);
      var w2 := w1.(python := io(Sync).python, synced := io(Sync).synced);
      SyncEscapes(host, w1, p.(pc := Sync), io);
      PrewarmEscapes(host, w2, p.(pc := Prewarm), io);
      OwnerEscapes(host, w2, p.(pc := OwnB), io, InstallB);
      InstallEscapes(host, w2, p.(pc := InstallB), io, Python2);
      LaterIsTyped(host, w2.(seats := io(InstallB).seats), p.(pc := Python2), io);
    }
  }

  lemma HeldEscapesIff(host: Host, w: World, io: Script)
    ensures Escapes(host, w, ENTERED, io)
            <==> ReachesInstall(host, w, io)
                 && (InstallExits(w, io(InstallA)) || (ReachesSecond(w, io) && io(InstallB).io.Exit?))
  {
    ToolsEscape(host, w, io);
    if ToolsSeen(w, io) {
      var p := Proc(Print, w.uv, SeenPython(w, io), "", None);
      var q := p.(pc := Fast, fp := SeenPrint(host, w, io));
      LookEscapes(host, w, p, io);
      FastEscapes(host, w, q, io);
      UnmarkEscapes(host, w, q.(pc := Unmark), io);
      OwnerEscapes(host, w.(marker := NoMarker), q.(pc := OwnA), io, InstallA);
      InstallationEscapes(host, w.(marker := NoMarker), q.(pc := InstallA), io);
    }
  }

  lemma PathsDoNotMatter(host: Host, w: World, io: Script)
    ensures var v := w.(paths := InOrder);
            ReachesInstall(host, v, io) == ReachesInstall(host, w, io) && ReachesSecond(v, io) == ReachesSecond(w, io)
  {
  }

  /** A call ends without a typed result if and only if it gets to one of the two installations and
      the installer exits there, the first time also for want of a hooks directory; by then the
      marker is gone. */
  lemma EscapesIff(host: Host, w: World, io: Script)
    ensures Ensure(host, w, io).outcome.None?
            <==> Admitted(w, io) && ReachesInstall(host, w, io)
                 && (InstallExits(w, io(InstallA)) || (ReachesSecond(w, io) && io(InstallB).io.Exit?))
    ensures Ensure(host, w, io).outcome.None? ==> Ensure(host, w, io).world.marker.NoMarker?
  {
    if Admitted(w, io) {
      var v := w.(paths := InOrder);
      HeldEscapesIff(host, v, io);
      OnlyTheInstallerEscapes(host, v, ENTERED, io);
      PathsDoNotMatter(host, w, io);
    }
  }

  const HOOKS := [Hook("pre-commit", 493, [1]), Hook("pre-push", 493, [2]), Hook("prepare-commit-msg", 493, [3]),
                  Hook("commit-msg", 493, [4])]

  /** A checkout with its four hooks, uv at hand, no environment and no hooks directory yet. */
  const BARE := World(true, OutOfOrder, "uv 1", "", true, Source([], [], [], HOOKS, [], []), false, Default(false),
                      [Absent, Absent, Absent, Absent], NoMarker, map[])

  /** It happens, and nothing has to fail for it: on such a checkout the installer exits, and the call
      with it, whatever the script. */
  lemma ExitGetsThrough(host: Host, io: Script)
    requires NothingFails(io)
    ensures Ensure(host, BARE, io).outcome.None?
  {
    EscapesIff(host, BARE, io);
  }

  // ---- What a degraded result leaves -------------------------------------------------------------------

  /** A lock holder either ends without a result or gets to record one. */
  lemma {:induction false} GetsToRecord(host: Host, w: World, p: Proc, io: Script) returns (w': World, p': Proc)
    requires Held(p.pc) && Rank(p.pc) >= Rank(Record) && (p.pc.Record? ==> p.outcome.Some?)
    ensures Escapes(host, w, p, io)
            || (p'.pc.Record? && p'.outcome.Some? && RunHeld(host, w, p, io) == RunHeld(host, w', p', io))
    decreases Rank(p.pc)
  {
    w', p' := w, p;
    if !p.pc.Record? {
      var t := EarlierTurn(host, w, p, io);
      if !t.proc.pc.Finished? {
        w', p' := GetsToRecord(host, t.world, t.proc, io);
      }
    }
  }

  lemma EarlierTurn(host: Host, w: World, p: Proc, io: Script) returns (t: Turn)
    requires Held(p.pc) && Rank(p.pc) > Rank(Record)
    ensures Descends(p, t) && RunHeld(host, w, p, io) == RunHeld(host, t.world, t.proc, io)
    ensures Rank(t.proc.pc) >= Rank(Record) || (t.proc.pc.Finished? && t.proc.outcome.None?)
    ensures t.proc.pc.Record? ==> t.proc.outcome.Some?
  {
    t := Go(host, w, p, io(p.pc));
    GoDescends(host, w, p, io(p.pc));
    if Inspecting(p.pc) {
      InspectionIsEarly(host, w, p, io(p.pc));
    } else if Repairing(p.pc) {
      RepairIsEarly(host, w, p, io(p.pc));
    } else {
      ValidationGoesOn(host, w, p, io(p.pc));
    }
  }

  lemma InspectionIsEarly(host: Host, w: World, p: Proc, c: Choice)
    requires Inspecting(p.pc)
    ensures var q := Inspect(host, w, p, c).proc;
            Rank(q.pc) >= Rank(Record) && (q.pc.Record? ==> q.outcome.Some?)
  {
  }

  lemma RepairIsEarly(host: Host, w: World, p: Proc, c: Choice)
    requires Repairing(p.pc)
    ensures var q := Repair(host, w, p, c).proc;
            && (Rank(q.pc) >= Rank(Record) || (q.pc.Finished? && q.outcome.None?))
            && (q.pc.Record? ==> q.outcome.Some?)
  {
  }

  /** Every removal of the marker that recording may attempt succeeds. */
  ghost predicate RemovalsWork(io: Script) {
    io(Record).io.Ok? && (io(Log).io.Ok? || io(LogUnmark).io.Ok?)
  }

  lemma HeldLeavesNoMarker(host: Host, w: World, io: Script)
    requires RemovalsWork(io) && !IsReadyResult(RunHeld(host, w, ENTERED, io))
    ensures RunHeld(host, w, ENTERED, io).world.marker.NoMarker?
  {
    var w', p' := GetsToRecord(host, w, ENTERED, io);
    if Escapes(host, w, ENTERED, io) {
      OnlyTheInstallerEscapes(host, w, ENTERED, io);
    } else {
      RecordLeavesMarkerIff(host, w', p', io);
    }
  }

  /** A result that is not READY and comes from under the lock leaves no marker, as long as the removals
      made while recording work; one from before the lock leaves all but the state paths alone. */
  lemma DegradedLeavesNoMarker(host: Host, w: World, io: Script)
    ensures var r := Ensure(host, w, io);
            && (Admitted(w, io) && RemovalsWork(io) && !IsReadyResult(r) ==> r.world.marker.NoMarker?)
            && (!Admitted(w, io) ==> r.outcome.Some? && !IsReadyResult(r) && r.world.(paths := w.paths) == w)
  {
    if Admitted(w, io) && RemovalsWork(io) && !IsReadyResult(Ensure(host, w, io)) {
      HeldLeavesNoMarker(host, w.(paths := InOrder), io);
    }
  }
}
