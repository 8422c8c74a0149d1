/** What a READY result stands for, and that the fast path and the full repair agree. */
module BootstrapReady {
  import opened Basics
  import opened Fingerprints
  import opened Bootstrap

  // ---- Ready means healthy -------------------------------------------------------------------

  /** The default hooks directory holds every hook as it is checked out. */
  ghost predicate HooksInPlace(w: World) {
    w.hooksDir == Default(true) && AllCurrent(w.source.hooks, w.seats)
  }

  /** Everything the marker vouches for is true of the workspace. */
  ghost predicate Healthy(host: Host, w: World, fp: string) {
    && w.uv != "" && w.python != "" && w.readable
    && fp == host.digest(w.source, w.python, w.uv)
    && HooksInPlace(w)
    && w.synced
    && MarkerMatches(w.marker, fp, w.python, w.uv).Yes?
    && SentinelMatches(w, fp).Yes?
  }

  ghost predicate ReadyIsHealthy(host: Host, w: World, o: Option<ReadyState>) {
    o.Some? && IsReady(o.value.reason) ==>
      o.value.fingerprint.Some? && Healthy(host, w, o.value.fingerprint.value)
  }

  /** The fingerprint in `p` is that of the workspace as it is. */
  ghost predicate Printed(host: Host, w: World, p: Proc) {
    && p.uv == w.uv && w.uv != "" && p.python == w.python && w.python != ""
    && w.readable && p.fp == host.digest(w.source, w.python, w.uv)
  }

  /** What holds of a lock holder that nobody interferes with. */
  ghost predicate Alone(host: Host, w: World, p: Proc) {
    match p.pc
    case Prepare => true
    case Acquire => true
    case Uv => true
    case Python => p.uv == w.uv && w.uv != ""
    case Print => p.uv == w.uv && w.uv != "" && (p.python == "" || p.python == w.python)
    case Own => p.uv == w.uv && w.uv != "" && (p.python == "" || Printed(host, w, p))
    case Fast => p.uv == w.uv && w.uv != "" && (p.python == "" || Printed(host, w, p)) && w.hooksDir.Default?
    case Unmark => p.uv == w.uv && w.uv != ""
    case OwnA => p.uv == w.uv && w.uv != ""
    case InstallA => p.uv == w.uv && w.uv != ""
    case Sync => p.uv == w.uv && w.uv != ""
    case Prewarm => p.uv == w.uv && w.uv != ""
    case OwnB => p.uv == w.uv && w.uv != ""
    case InstallB => p.uv == w.uv && w.uv != "" && w.hooksDir.Default?
    case Python2 => p.uv == w.uv && w.uv != "" && w.hooksDir.Default?
    case Print2 => p.uv == w.uv && w.uv != "" && w.hooksDir.Default? && p.python == w.python && w.python != ""
    case Check => Printed(host, w, p) && w.hooksDir.Default?
    case Current => Printed(host, w, p) && w.hooksDir.Default? && w.synced
    case PutSentinel => Printed(host, w, p) && w.hooksDir.Default? && w.synced && HooksCurrent(w)
    case PutMarker => Printed(host, w, p) && w.hooksDir.Default? && w.synced && HooksCurrent(w)
                      && SentinelMatches(w, p.fp).Yes?
    case Record => p.outcome.Some? && ReadyIsHealthy(host, w, p.outcome)
    case Log => p.outcome.Some? && ReadyIsHealthy(host, w, p.outcome)
    case LogUnmark => true
    case Finished => ReadyIsHealthy(host, w, p.outcome)
  }

  lemma NewMarkerMatches(stamp: string, p: Proc)
    ensures MarkerMatches(NewMarker(stamp, p), p.fp, p.python, p.uv).Yes?
  {
    assert NewMarker(stamp, p).content.fields["checked_at"] == Str(stamp);
  }

  lemma InspectionStaysAlone(host: Host, w: World, p: Proc, c: Choice)
    requires p.pc.Uv? || p.pc.Python? || p.pc.Print? || p.pc.Own?
    requires Alone(host, w, p)
    ensures Alone(host, Inspect(host, w, p, c).world, Inspect(host, w, p, c).proc)
  {
  }

  lemma FastStaysAlone(host: Host, w: World, p: Proc, c: Choice)
    requires p.pc.Fast?
    requires Alone(host, w, p)
    ensures Alone(host, Inspect(host, w, p, c).world, Inspect(host, w, p, c).proc)
  {
  }

  lemma RepairStaysAlone(host: Host, w: World, p: Proc, c: Choice)
    requires p.pc.Unmark? || p.pc.OwnA? || p.pc.Prewarm? || p.pc.OwnB?
    requires Alone(host, w, p)
    ensures Alone(host, Repair(host, w, p, c).world, Repair(host, w, p, c).proc)
  {
  }

  lemma CommandStaysAlone(host: Host, w: World, p: Proc, c: Choice)
    requires p.pc.InstallA? || p.pc.InstallB? || p.pc.Sync?
    requires Alone(host, w, p)
    ensures Alone(host, Repair(host, w, p, c).world, Repair(host, w, p, c).proc)
  {
  }

  lemma ValidationStaysAlone(host: Host, w: World, p: Proc, c: Choice)
    requires p.pc.Python2? || p.pc.Print2? || p.pc.Check? || p.pc.Current? || p.pc.PutSentinel?
    requires Alone(host, w, p)
    ensures Alone(host, Validate(host, w, p, c).world, Validate(host, w, p, c).proc)
  {
  }

  lemma MarkerStaysAlone(host: Host, w: World, p: Proc, c: Choice)
    requires p.pc.PutMarker?
    requires Alone(host, w, p)
    ensures Alone(host, Validate(host, w, p, c).world, Validate(host, w, p, c).proc)
  {
    NewMarkerMatches(c.stamp, p);
  }

  lemma RecordStaysAlone(host: Host, w: World, p: Proc, c: Choice)
    requires p.pc.Record? || p.pc.Log? || p.pc.LogUnmark?
    requires Alone(host, w, p)
    ensures Alone(host, Conclude(host, w, p, c).world, Conclude(host, w, p, c).proc)
  {
  }

  lemma StaysAlone(host: Host, w: World, p: Proc, c: Choice)
    requires Held(p.pc) && Alone(host, w, p)
    ensures Alone(host, Go(host, w, p, c).world, Go(host, w, p, c).proc)
  {
    match p.pc
    case Uv => InspectionStaysAlone(host, w, p, c);
    case Python => InspectionStaysAlone(host, w, p, c);
    case Print => InspectionStaysAlone(host, w, p, c);
    case Own => InspectionStaysAlone(host, w, p, c);
    case Fast => FastStaysAlone(host, w, p, c);
    case Python2 => ValidationStaysAlone(host, w, p, c);
    case Print2 => ValidationStaysAlone(host, w, p, c);
    case Check => ValidationStaysAlone(host, w, p, c);
    case Current => ValidationStaysAlone(host, w, p, c);
    case PutSentinel => ValidationStaysAlone(host, w, p, c);
    case PutMarker => MarkerStaysAlone(host, w, p, c);
    case Record => RecordStaysAlone(host, w, p, c);
    case Log => RecordStaysAlone(host, w, p, c);
    case LogUnmark => RecordStaysAlone(host, w, p, c);
    case InstallA => CommandStaysAlone(host, w, p, c);
    case InstallB => CommandStaysAlone(host, w, p, c);
    case Sync => CommandStaysAlone(host, w, p, c);
    case _ => RepairStaysAlone(host, w, p, c);
  }

  lemma {:induction false} HeldReadyIsHealthy(host: Host, w: World, p: Proc, io: Script)
    requires (Held(p.pc) || p.pc.Finished?) && Alone(host, w, p)
    ensures var r := RunHeld(host, w, p, io);
            ReadyIsHealthy(host, r.world, r.outcome)
    decreases Rank(p.pc)
  {
    if !p.pc.Finished? {
      var t := Go(host, w, p, io(p.pc));
      GoDescends(host, w, p, io(p.pc));
      Advance(host, w, p, io, t.world, t.proc);
      StaysAlone(host, w, p, io(p.pc));
      HeldReadyIsHealthy(host, t.world, t.proc, io);
    }
  }

  lemma EnteredReadyIsHealthy(host: Host, w: World, io: Script)
    ensures ReadyIsHealthy(host, RunHeld(host, w, ENTERED, io).world, RunHeld(host, w, ENTERED, io).outcome)
  {
    HeldReadyIsHealthy(host, w, ENTERED, io);
  }

  /** Whatever fails or succeeds on the way: READY is only returned for a healthy workspace, and
      the fingerprint that comes with it is that of the workspace. */
  lemma ReadyMeansHealthy(host: Host, w: World, io: Script)
    ensures ReadyIsHealthy(host, Ensure(host, w, io).world, Ensure(host, w, io).outcome)
    ensures ReadyIsHealthy(host, w, Some(CheckReady(host, w, io)))
  {
    EnsureSplits(host, w, io);
    EnteredReadyIsHealthy(host, w.(paths := InOrder), io);
    CheckMeansHealthy(host, w, io);
  }

  lemma CheckMeansHealthy(host: Host, w: World, io: Script)
    ensures ReadyIsHealthy(host, w, Some(CheckReady(host, w, io)))
  {
  }

  // ---- The fast path ------------------------------------------------------------------------------

  ghost predicate NothingFails(io: Script) {
    forall pc :: io(pc).io.Ok?
  }

  lemma CurrentIsManageable(hooks: seq<Hook>, seats: seq<Seat>)
    requires AllCurrent(hooks, seats)
    ensures AllManageable(hooks, seats)
  {
    forall i | 0 <= i < |hooks| ensures SeatManageable(hooks[i], seats[i]) {
      assert SeatCurrent(hooks[i], seats[i]);
    }
  }

  lemma FastReadyIff(host: Host, w: World)
    requires w.uv != "" && w.python != "" && w.readable && w.hooksDir.Default?
    ensures var fp := host.digest(w.source, w.python, w.uv);
            && (FastReady(w, w.uv, w.python, fp, CheckAnswer(w.synced, Ok)).Yes? <==> Healthy(host, w, fp))
            && (FastReady(w, w.uv, w.python, fp, CheckAnswer(w.synced, Ok)).Raises? <==> Unparsable(w, fp))
  {
  }

  /** A private file that the fast path reads but cannot make sense of: the sentinel of `fp` is not
      UTF-8, or the marker is not UTF-8, is JSON but no object, or makes the JSON parser itself give up. */
  ghost predicate Unparsable(w: World, fp: string) {
    || UndecodableSentinel(w, fp)
    || (w.marker.Marker? && w.marker.isPrivate
        && (w.marker.content.NotUtf8? || w.marker.content.NotAnObject? || w.marker.content.Unloadable?))
  }

  ghost predicate UndecodableSentinel(w: World, fp: string) {
    fp in w.sentinels && w.sentinels[fp].isPrivate && w.sentinels[fp].text.None?
  }

  /** The fingerprint before any repair; without a project python the engine's own version stands in. */
  ghost function FirstPrint(host: Host, w: World): string {
    host.digest(w.source, if w.python != "" then w.python else host.runtimePython, w.uv)
  }

  lemma ToolsOf(host: Host, w: World, io: Script)
    requires NothingFails(io) && w.uv != ""
    ensures RunHeld(host, w, ENTERED, io) == RunHeld(host, w, Proc(Print, w.uv, w.python, "", None), io)
  {
    var p1 := ENTERED.(pc := Python, uv := w.uv);
    Advance(host, w, ENTERED, io, w, p1);
    Advance(host, w, p1, io, w, p1.(pc := Print, python := w.python));
  }

  /** The inspection of an undisturbed process: five looks, then it either stops or starts to repair. */
  lemma InspectionOf(host: Host, w: World, io: Script)
    requires NothingFails(io)
    requires w.uv != "" && w.readable && OwnershipProblem(w).None?
    ensures var fp := FirstPrint(host, w);
            RunHeld(host, w, ENTERED, io) == RunHeld(host, w, Proc(Fast, w.uv, w.python, fp, None), io)
  {
    ToolsOf(host, w, io);
    var p := Proc(Own, w.uv, w.python, FirstPrint(host, w), None);
    Advance(host, w, Proc(Print, w.uv, w.python, "", None), io, w, p);
    Advance(host, w, p, io, w, p.(pc := Fast));
  }

  lemma ReadyIsRecorded(host: Host, w: World, p: Proc, io: Script)
    requires NothingFails(io) && p.pc.Record? && p.outcome.Some? && IsReady(p.outcome.value.reason)
    ensures RunHeld(host, w, p, io) == Result(w, p.outcome)
  {
    Advance(host, w, p, io, w, p.(pc := Log));
    Advance(host, w, p.(pc := Log), io, w, p.(pc := Finished));
  }

  /** A healthy workspace takes the fast path and is not touched. */
  lemma HealthyIsFast(host: Host, w: World, io: Script, fp: string)
    requires NothingFails(io) && Healthy(host, w, fp)
    ensures RunHeld(host, w, ENTERED, io) == Result(w, Some(ReadyState(ReadyFastPath, Some(fp))))
  {
    CurrentIsManageable(w.source.hooks, w.seats);
    InspectionOf(host, w, io);
    FastReadyIff(host, w);
    var p := Proc(Fast, w.uv, w.python, fp, None);
    var q := p.(pc := Record, outcome := Some(ReadyState(ReadyFastPath, Some(fp))));
    Advance(host, w, p, io, w, q);
    ReadyIsRecorded(host, w, q, io);
  }

  /** `check` answers ready exactly for a healthy workspace whose state paths are in order. */
  lemma CheckIsReadyIff(host: Host, w: World, io: Script, fp: string)
    requires NothingFails(io)
    ensures CheckReady(host, w, io) == ReadyState(ReadyFastPath, Some(fp))
            <==> w.valid && w.paths.InOrder? && Healthy(host, w, fp)
  {
    if w.uv != "" && w.python != "" && w.readable && w.hooksDir.Default? {
      FastReadyIff(host, w);
      if AllCurrent(w.source.hooks, w.seats) { CurrentIsManageable(w.source.hooks, w.seats); }
    }
  }

  /** After any READY result, as long as nothing changes, `ensure` returns the fast path with the
      same fingerprint and leaves the workspace as it is, and so does `check`. */
  lemma RepairThenFastPath(host: Host, w: World, io: Script, io': Script, io'': Script)
    requires NothingFails(io') && NothingFails(io'')
    requires Ensure(host, w, io).outcome.Some? && IsReady(Ensure(host, w, io).outcome.value.reason)
    ensures var first := Ensure(host, w, io);
            var fp := first.outcome.value.fingerprint;
            && fp.Some?
            && Ensure(host, first.world, io') == Result(first.world, Some(ReadyState(ReadyFastPath, fp)))
            && CheckReady(host, first.world, io'') == ReadyState(ReadyFastPath, fp)
  {
    var first := Ensure(host, w, io);
    ReadyMeansHealthy(host, w, io);
    ReadyIsInOrder(host, w, io);
    var fp := first.outcome.value.fingerprint.value;
    HealthyCallIsFast(host, first.world, io', fp);
    CheckIsReadyIff(host, first.world, io'', fp);
  }

  lemma ReadyIsInOrder(host: Host, w: World, io: Script)
    requires Ensure(host, w, io).outcome.Some? && IsReady(Ensure(host, w, io).outcome.value.reason)
    ensures Ensure(host, w, io).world.valid && Ensure(host, w, io).world.paths.InOrder?
  {
    EnsureSplits(host, w, io);
    PathsStayInOrder(host, w.(paths := InOrder), ENTERED, io);
  }

  lemma HealthyCallIsFast(host: Host, w: World, io: Script, fp: string)
    requires NothingFails(io) && w.valid && w.paths.InOrder? && Healthy(host, w, fp)
    ensures Ensure(host, w, io) == Result(w, Some(ReadyState(ReadyFastPath, Some(fp))))
  {
    assert w.(paths := InOrder) == w;
    EnsureSplits(host, w, io);
    HealthyIsFast(host, w, io, fp);
  }

  lemma {:induction false} PathsStayInOrder(host: Host, w: World, p: Proc, io: Script)
    requires Held(p.pc) || p.pc.Finished?
    ensures RunHeld(host, w, p, io).world.paths == w.paths && RunHeld(host, w, p, io).world.valid == w.valid
    decreases Rank(p.pc)
  {
    if !p.pc.Finished? {
      var t := Go(host, w, p, io(p.pc));
      GoDescends(host, w, p, io(p.pc));
      Advance(host, w, p, io, t.world, t.proc);
      GoKeepsPaths(host, w, p, io(p.pc));
      PathsStayInOrder(host, t.world, t.proc, io);
    }
  }

  lemma GoKeepsPaths(host: Host, w: World, p: Proc, c: Choice)
    requires Held(p.pc)
    ensures Go(host, w, p, c).world.paths == w.paths && Go(host, w, p, c).world.valid == w.valid
  {
  }

  /** Every command does its work: installs leave current seats, sync leaves a synced environment. */
  ghost predicate CommandsWork(w: World, io: Script) {
    && NothingFails(io)
    && AllCurrent(w.source.hooks, io(InstallA).seats) && AllCurrent(w.source.hooks, io(InstallB).seats)
    && io(Sync).python != "" && io(Sync).synced
  }

  lemma FirstHooks(host: Host, w: World, p: Proc, io: Script)
    requires !NoHooksDir(w)
    requires CommandsWork(w, io) && OwnershipProblem(w).None? && p.pc.Unmark?
    ensures RunHeld(host, w, p, io)
            == RunHeld(host, w.(marker := NoMarker, seats := io(InstallA).seats), p.(pc := Sync), io)
  {
    var w1 := w.(marker := NoMarker);
    Advance(host, w, p, io, w1, p.(pc := OwnA));
    Advance(host, w1, p.(pc := OwnA), io, w1, p.(pc := InstallA));
    Advance(host, w1, p.(pc := InstallA), io, w1.(seats := io(InstallA).seats), p.(pc := Sync));
  }

  lemma Environment(host: Host, w: World, p: Proc, io: Script)
    requires NothingFails(io) && p.pc.Sync?
    ensures RunHeld(host, w, p, io)
            == RunHeld(host, w.(python := io(Sync).python, synced := io(Sync).synced), p.(pc := OwnB), io)
  {
    var w1 := w.(python := io(Sync).python, synced := io(Sync).synced);
    Advance(host, w, p, io, w1, p.(pc := Prewarm));
    Advance(host, w1, p.(pc := Prewarm), io, w1, p.(pc := OwnB));
  }

  lemma SecondHooks(host: Host, w: World, p: Proc, io: Script)
    requires !NoHooksDir(w)
    requires CommandsWork(w, io) && OwnershipProblem(w).None? && p.pc.OwnB?
    ensures RunHeld(host, w, p, io) == RunHeld(host, w.(seats := io(InstallB).seats), p.(pc := Python2), io)
  {
    Advance(host, w, p, io, w, p.(pc := InstallB));
    Advance(host, w, p.(pc := InstallB), io, w.(seats := io(InstallB).seats), p.(pc := Python2));
  }

  lemma RepairReaches(host: Host, w: World, p: Proc, io: Script) returns (w': World, p': Proc)
    requires !NoHooksDir(w)
    requires CommandsWork(w, io) && w.readable && OwnershipProblem(w).None? && p.pc.Unmark?
    ensures Repaired(w', p') && RunHeld(host, w, p, io) == RunHeld(host, w', p', io)
  {
    CurrentIsManageable(w.source.hooks, io(InstallA).seats);
    FirstHooks(host, w, p, io);
    w' := w.(marker := NoMarker, seats := io(InstallA).seats);
    Environment(host, w', p.(pc := Sync), io);
    w' := w'.(python := io(Sync).python, synced := io(Sync).synced);
    SecondHooks(host, w', p.(pc := OwnB), io);
    w', p' := w'.(seats := io(InstallB).seats), p.(pc := Python2);
  }

  /** Repaired, and about to be validated. */
  ghost predicate Repaired(w: World, p: Proc) {
    && p.pc.Python2? && w.python != "" && w.readable && w.synced
    && HooksInPlace(w)
  }

  /** Checked under the fingerprint in `p`, and about to be recorded. */
  ghost predicate Validated(w: World, p: Proc) {
    p.pc.Current? && HooksCurrent(w)
  }

  lemma LooksAgain(host: Host, w: World, p: Proc, io: Script) returns (p': Proc)
    requires NothingFails(io) && Repaired(w, p)
    ensures Validated(w, p') && RunHeld(host, w, p, io) == RunHeld(host, w, p', io)
  {
    var p1 := p.(pc := Print2, python := w.python);
    var p2 := p1.(pc := Check, fp := host.digest(w.source, w.python, p.uv));
    Advance(host, w, p, io, w, p1);
    Advance(host, w, p1, io, w, p2);
    p' := p2.(pc := Current);
    Advance(host, w, p2, io, w, p');
  }

  lemma WritesSentinel(host: Host, w: World, p: Proc, io: Script)
    requires NothingFails(io) && Validated(w, p)
    ensures var w1 := w.(sentinels := w.sentinels[p.fp := Sentinel(true, Some(p.fp + "\n"))]);
            RunHeld(host, w, p, io) == RunHeld(host, w1, p.(pc := PutMarker), io)
  {
    var w1 := w.(sentinels := w.sentinels[p.fp := Sentinel(true, Some(p.fp + "\n"))]);
    Advance(host, w, p, io, w, p.(pc := PutSentinel));
    Advance(host, w, p.(pc := PutSentinel), io, w1, p.(pc := PutMarker));
  }

  lemma WritesBoth(host: Host, w: World, p: Proc, io: Script) returns (w': World, p': Proc)
    requires NothingFails(io) && Validated(w, p)
    ensures p'.pc.Record? && p'.outcome == Some(ReadyState(ReadyRepaired, Some(p.fp)))
    ensures RunHeld(host, w, p, io) == RunHeld(host, w', p', io)
  {
    var w1 := w.(sentinels := w.sentinels[p.fp := Sentinel(true, Some(p.fp + "\n"))]);
    WritesSentinel(host, w, p, io);
    w' := w1.(marker := NewMarker(io(PutMarker).stamp, p.(pc := PutMarker)));
    p' := p.(pc := Record, outcome := Some(ReadyState(ReadyRepaired, Some(p.fp))));
    Advance(host, w1, p.(pc := PutMarker), io, w', p');
  }

  lemma ValidationSucceeds(host: Host, w: World, p: Proc, io: Script)
    requires NothingFails(io) && Repaired(w, p)
    ensures var o := RunHeld(host, w, p, io).outcome;
            o.Some? && o.value.reason == ReadyRepaired
  {
    var p1 := LooksAgain(host, w, p, io);
    var w2, p2 := WritesBoth(host, w, p1, io);
    ReadyIsRecorded(host, w2, p2, io);
  }

  /** Managed, with its tools and inputs at hand. */
  ghost predicate Manageable(w: World) {
    w.valid && !w.paths.Linked? && w.uv != "" && w.readable && OwnershipProblem(w).None?
  }

  ghost predicate IsReadyResult(r: Result) {
    r.outcome.Some? && IsReady(r.outcome.value.reason)
  }

  lemma DegradedIsRecorded(host: Host, w: World, p: Proc, io: Script)
    requires NothingFails(io) && p.pc.Record? && p.outcome.Some? && !IsReady(p.outcome.value.reason)
    ensures RunHeld(host, w, p, io) == Result(w.(marker := NoMarker), p.outcome)
  {
    Advance(host, w, p, io, w.(marker := NoMarker), p.(pc := Log));
    LogLeaves(host, w.(marker := NoMarker), p.(pc := Log), io);
  }

  lemma UnparsableStops(host: Host, w: World, io: Script)
    requires NothingFails(io) && w.uv != "" && w.readable && OwnershipProblem(w).None?
    requires w.python != "" && Unparsable(w, FirstPrint(host, w))
    ensures RunHeld(host, w, ENTERED, io)
            == Result(w.(marker := NoMarker), Some(ReadyState(UnexpectedInternalError, None)))
  {
    InspectionOf(host, w, io);
    FastReadyIff(host, w);
    var p := Proc(Fast, w.uv, w.python, FirstPrint(host, w), None);
    var q := p.(pc := Record, outcome := Some(ReadyState(UnexpectedInternalError, None)));
    Advance(host, w, p, io, w, q);
    DegradedIsRecorded(host, w, q, io);
  }

  lemma ParsableBecomesReady(host: Host, w: World, io: Script)
    requires !NoHooksDir(w)
    requires w.uv != "" && w.readable && OwnershipProblem(w).None? && CommandsWork(w, io)
    requires w.python == "" || !Unparsable(w, FirstPrint(host, w))
    ensures IsReadyResult(RunHeld(host, w, ENTERED, io))
  {
    var p := Proc(Fast, w.uv, w.python, FirstPrint(host, w), None);
    InspectionOf(host, w, io);
    if w.python != "" { FastReadyIff(host, w); }
    if w.python != "" && FastReady(w, w.uv, w.python, p.fp, CheckAnswer(w.synced, Ok)).Yes? {
      HealthyIsFast(host, w, io, p.fp);
    } else {
      Advance(host, w, p, io, w, p.(pc := Unmark));
      var w', p' := RepairReaches(host, w, p.(pc := Unmark), io);
      ValidationSucceeds(host, w', p', io);
    }
  }

  lemma MissingDirEscapes(host: Host, w: World, io: Script)
    requires NothingFails(io) && w.uv != "" && w.readable && NoHooksDir(w)
    requires w.python == "" || !Unparsable(w, FirstPrint(host, w))
    ensures RunHeld(host, w, ENTERED, io) == Result(w.(marker := NoMarker), None)
  {
    var p := Proc(Fast, w.uv, w.python, FirstPrint(host, w), None);
    InspectionOf(host, w, io);
    if w.python != "" { FastReadyIff(host, w); }
    Advance(host, w, p, io, w, p.(pc := Unmark));
    NothingToInstallInto(host, w, p.(pc := Unmark), io);
  }

  lemma NothingToInstallInto(host: Host, w: World, p: Proc, io: Script)
    requires NothingFails(io) && NoHooksDir(w) && p.pc.Unmark? && p.outcome.None?
    ensures RunHeld(host, w, p, io) == Result(w.(marker := NoMarker), None)
  {
    var w1 := w.(marker := NoMarker);
    Advance(host, w, p, io, w1, p.(pc := OwnA));
    Advance(host, w1, p.(pc := OwnA), io, w1, p.(pc := InstallA));
    Advance(host, w1, p.(pc := InstallA), io, w1, p.(pc := Finished, outcome := None));
  }

  /** When every command works, a managed workspace becomes ready, from whatever environment it starts,
      if and only if its hooks directory exists and there is no project python yet or the private marker
      and sentinel can be parsed. Otherwise the call has removed the marker and nothing else, and ends
      in an internal error, or without a result when only the hooks directory is missing. */
  lemma RepairSucceedsIff(host: Host, w: World, io: Script)
    requires Manageable(w) && CommandsWork(w, io)
    ensures IsReadyResult(Ensure(host, w, io))
            <==> !NoHooksDir(w) && !(w.python != "" && Unparsable(w, FirstPrint(host, w)))
    ensures !IsReadyResult(Ensure(host, w, io)) ==>
              Ensure(host, w, io) == Result(w.(paths := InOrder, marker := NoMarker),
                                            if w.python != "" && Unparsable(w, FirstPrint(host, w))
                                            then Some(ReadyState(UnexpectedInternalError, None)) else None)
  {
    var v := w.(paths := InOrder);
    assert FirstPrint(host, v) == FirstPrint(host, w);
    EnsureSplits(host, w, io);
    if w.python != "" && Unparsable(w, FirstPrint(host, w)) {
      UnparsableStops(host, v, io);
    } else if NoHooksDir(w) {
      MissingDirEscapes(host, v, io);
    } else {
      ParsableBecomesReady(host, v, io);
    }
  }

  /** The results of calls one after the other, each on what the one before left. */
  function Calls(host: Host, w: World, ios: seq<Script>): seq<Result>
    decreases ios
  {
    if ios == [] then []
    else
      var r := Ensure(host, w, ios[0]);
      [r] + Calls(host, r.world, ios[1..])
  }

  /** A marker that cannot be parsed is gone after one call, and the next one makes the workspace
      ready, if and only if the sentinel can be decoded and the hooks directory exists. */
  lemma BadMarkerHeals(host: Host, w: World, io: Script, io': Script)
    requires Manageable(w) && CommandsWork(w, io) && CommandsWork(w, io')
    requires w.python != "" && Unparsable(w, FirstPrint(host, w))
    ensures IsReadyResult(Ensure(host, Ensure(host, w, io).world, io'))
            <==> !NoHooksDir(w) && !UndecodableSentinel(w, FirstPrint(host, w))
  {
    RepairSucceedsIff(host, w, io);
    RepairSucceedsIff(host, w.(paths := InOrder, marker := NoMarker), io');
  }

  /** An undecodable sentinel never heals: however often the call is made, and though every command
      would work, each one ends in an internal error and leaves the sentinel where it is. */
  lemma {:induction false} BadSentinelStays(host: Host, w: World, ios: seq<Script>)
    requires Manageable(w) && w.python != "" && UndecodableSentinel(w, FirstPrint(host, w))
    requires forall i :: 0 <= i < |ios| ==> CommandsWork(w, ios[i])
    ensures |Calls(host, w, ios)| == |ios|
    ensures forall i :: 0 <= i < |ios| ==>
              Calls(host, w, ios)[i] == Result(w.(paths := InOrder, marker := NoMarker),
                                               Some(ReadyState(UnexpectedInternalError, None)))
    decreases ios
  {
    if ios != [] {
      RepairSucceedsIff(host, w, ios[0]);
      BadSentinelStays(host, w.(paths := InOrder, marker := NoMarker), ios[1..]);
    }
  }

  // ---- Degraded results ------------------------------------------------------------------------------

  /** Every attempt to remove the marker while recording fails. */
  ghost predicate UnlinksFail(p: Proc, io: Script)
    requires p.outcome.Some?
  {
    && (!IsReady(p.outcome.value.reason) ==> !io(Record).io.Ok?)
    && (!io(Log).io.Ok? ==> !io(LogUnmark).io.Ok?)
  }

  lemma LogLeaves(host: Host, w: World, p: Proc, io: Script)
    requires p.pc.Log?
    ensures RunHeld(host, w, p, io)
            == if io(Log).io.Ok? then Result(w, p.outcome)
               else Result(if io(LogUnmark).io.Ok? then w.(marker := NoMarker) else w,
                           Some(ReadyState(StateIoFailed, None)))
  {
    if io(Log).io.Ok? {
      Advance(host, w, p, io, w, p.(pc := Finished));
    } else {
      Advance(host, w, p, io, w, p.(pc := LogUnmark));
      Advance(host, w, p.(pc := LogUnmark), io, if io(LogUnmark).io.Ok? then w.(marker := NoMarker) else w,
              p.(pc := Finished, outcome := Some(ReadyState(StateIoFailed, None))));
    }
  }

  /** Recording a result that ends up degraded leaves a marker exactly when there was one and
      every attempt to remove it failed. */
  lemma RecordLeavesMarkerIff(host: Host, w: World, p: Proc, io: Script)
    requires p.pc.Record? && p.outcome.Some?
    ensures var r := RunHeld(host, w, p, io);
            && r.outcome.Some?
            && (IsReady(r.outcome.value.reason) <==> IsReady(p.outcome.value.reason) && io(Log).io.Ok?)
            && (IsReady(r.outcome.value.reason) ==> r == Result(w, p.outcome))
            && (!IsReady(r.outcome.value.reason) ==>
                  (r.world.marker != NoMarker <==> w.marker != NoMarker && UnlinksFail(p, io)))
  {
    var ready := IsReady(p.outcome.value.reason);
    var w1 := if !ready && io(Record).io.Ok? then w.(marker := NoMarker) else w;
    var o1 := if ready || io(Record).io.Ok? then p.outcome
              else Some(ReadyState(StateIoFailed, p.outcome.value.fingerprint));
    Advance(host, w, p, io, w1, p.(pc := Log, outcome := o1));
    LogLeaves(host, w1, p.(pc := Log, outcome := o1), io);
  }
}
