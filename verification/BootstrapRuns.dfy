/** Any number of processes in `ensure` at once, crashes at any step, and outsiders who may
    change the workspace at any time. */
module BootstrapRuns {
  import opened Basics
  import opened Bootstrap

  /** An act together with the process that did it. */
  datatype Event = Event(pid: nat, act: Act)

  /** `trace` records the acts of the lock holders. */
  datatype System = System(world: World, procs: map<nat, Proc>, lock: Option<nat>, trace: seq<Event>)

  datatype Move =
    | Start(pid: nat)
    | Step(pid: nat, choice: Choice)
    | Crash(pid: nat)
    | Outside(world: World)

  function By(pid: nat, acts: seq<Act>): seq<Event> {
    Map((a: Act) => Event(pid, a), acts)
  }

  /** One process takes its next step. */
  function StepOf(host: Host, sys: System, pid: nat, c: Choice): System
    requires pid in sys.procs
  {
    var p := sys.procs[pid];
    if Held(p.pc) then After(sys, pid, Go(host, sys.world, p, c)) else Approach(sys, pid, c)
  }

  /** The steps before the lock is held; a finished process has none left. */
  function Approach(sys: System, pid: nat, c: Choice): System
    requires pid in sys.procs && !Held(sys.procs[pid].pc)
  {
    var p := sys.procs[pid];
    match p.pc
    case Finished => sys
    case Prepare =>
      if !sys.world.valid then Ended(sys, pid, InvalidWorkspace)
      else if sys.world.paths.Linked? || !c.io.Ok? then Ended(sys, pid, StateIoFailed)
      else sys.(world := sys.world.(paths := InOrder), procs := sys.procs[pid := p.(pc := Acquire)])
    case Acquire =>
      if c.io.Timeout? then Ended(sys, pid, LockTimeout)
      else if c.io.Raise? then Ended(sys, pid, UnexpectedInternalError)
      else if !c.io.Ok? then Ended(sys, pid, StateIoFailed)
      else if sys.lock.Some? then sys  // still waiting
      else sys.(procs := sys.procs[pid := ENTERED], lock := Some(pid), trace := sys.trace + [Event(pid, Acquired)])
  }

  /** The lock holder's turn takes effect; when it has finished, the lock is free again. */
  function After(sys: System, pid: nat, t: Turn): System {
    var procs := sys.procs[pid := t.proc];
    if t.proc.pc.Finished?
    then System(t.world, procs, None, sys.trace + By(pid, t.acts) + [Event(pid, Released)])
    else System(t.world, procs, sys.lock, sys.trace + By(pid, t.acts))
  }

  function Ended(sys: System, pid: nat, reason: Reason): System
    requires pid in sys.procs
  {
    sys.(procs := sys.procs[pid := sys.procs[pid].(pc := Finished, outcome := Some(ReadyState(reason, None)))])
  }

  function Apply(host: Host, sys: System, m: Move): System {
    match m
    case Start(pid) =>
      if pid in sys.procs && !sys.procs[pid].pc.Finished? then sys else sys.(procs := sys.procs[pid := IDLE])
    case Step(pid, c) =>
      if pid in sys.procs then StepOf(host, sys, pid, c) else sys
    case Crash(pid) =>
      // The operating system drops the lock of a process that dies.
      if sys.lock == Some(pid)
      then System(sys.world, sys.procs - {pid}, None, sys.trace + [Event(pid, Crashed)])
      else sys.(procs := sys.procs - {pid})
    case Outside(world) => sys.(world := world)
  }

  function Run(host: Host, w: World, moves: seq<Move>): System {
    if moves == [] then System(w, map[], None, [])
    else Apply(host, Run(host, w, moves[..|moves| - 1]), moves[|moves| - 1])
  }

  // ---- What the lock holder has done so far ------------------------------------------------------

  /** The acts since the lock was taken, for a holder that is at `pc`. */
  function Done(pc: Pc, fp: string): seq<Act> {
    match pc
    case OwnA => [Acquired, Unmarked]
    case InstallA => [Acquired, Unmarked]
    case Sync => [Acquired, Unmarked, HooksInstalled]
    case Prewarm => [Acquired, Unmarked, HooksInstalled, Synced]
    case OwnB => [Acquired, Unmarked, HooksInstalled, Synced, Prewarmed]
    case InstallB => [Acquired, Unmarked, HooksInstalled, Synced, Prewarmed]
    case Python2 => [Acquired, Unmarked, HooksInstalled, Synced, Prewarmed, HooksInstalled]
    case Print2 => [Acquired, Unmarked, HooksInstalled, Synced, Prewarmed, HooksInstalled]
    case Check => [Acquired, Unmarked, HooksInstalled, Synced, Prewarmed, HooksInstalled]
    case Current => [Acquired, Unmarked, HooksInstalled, Synced, Prewarmed, HooksInstalled, Checked(fp)]
    case PutSentinel => [Acquired, Unmarked, HooksInstalled, Synced, Prewarmed, HooksInstalled, Checked(fp), HooksSeen]
    case PutMarker => [Acquired, Unmarked, HooksInstalled, Synced, Prewarmed, HooksInstalled, Checked(fp), HooksSeen,
                       SentinelWritten(fp)]
    case _ => [Acquired]
  }

  /** The whole repair, up to and including the marker. */
  function RepairActs(fp: string): seq<Act> {
    [Acquired, Unmarked, HooksInstalled, Synced, Prewarmed, HooksInstalled, Checked(fp), HooksSeen,
     SentinelWritten(fp), MarkerWritten(fp)]
  }

  ghost predicate EndsWith(s: seq<Event>, t: seq<Event>) {
    |t| <= |s| && s[|s| - |t|..] == t
  }

  predicate BeforeRecord(pc: Pc) {
    Held(pc) && !pc.Record? && !pc.Log? && !pc.LogUnmark?
  }

  /** Every marker written so far is the last act of a complete repair in one lock hold. */
  ghost predicate MarkersEarned(trace: seq<Event>) {
    forall k :: 0 <= k < |trace| && trace[k].act.MarkerWritten? ==> EarnedAt(trace, k)
  }

  ghost predicate EarnedAt(trace: seq<Event>, k: int)
    requires 0 <= k < |trace|
  {
    trace[k].act.MarkerWritten? && EndsWith(trace[..k + 1], By(trace[k].pid, RepairActs(trace[k].act.fp)))
  }

  ghost predicate Inv(sys: System) {
    && (forall pid :: pid in sys.procs && Held(sys.procs[pid].pc) ==> sys.lock == Some(pid))
    && (forall pid :: pid in sys.procs && BeforeRecord(sys.procs[pid].pc) ==>
          EndsWith(sys.trace, By(pid, Done(sys.procs[pid].pc, sys.procs[pid].fp))))
    && MarkersEarned(sys.trace)
  }

  lemma EarnedStays(trace: seq<Event>, more: seq<Event>)
    requires MarkersEarned(trace)
    requires forall k :: 0 <= k < |more| && more[k].act.MarkerWritten? ==> EarnedAt(trace + more, |trace| + k)
    ensures MarkersEarned(trace + more)
  {
    forall k | 0 <= k < |trace + more| && (trace + more)[k].act.MarkerWritten? ensures EarnedAt(trace + more, k) {
      if k < |trace| {
        assert (trace + more)[k] == trace[k] && EarnedAt(trace, k);
        assert (trace + more)[..k + 1] == trace[..k + 1];
      }
    }
  }

  lemma EndsWithAppend(s: seq<Event>, t: seq<Event>, more: seq<Event>)
    requires EndsWith(s, t)
    ensures EndsWith(s + more, t + more)
  {
    assert (s + more)[|s + more| - |t + more|..] == s[|s| - |t|..] + more;
  }

  lemma ByAppend(pid: nat, a: seq<Act>, b: seq<Act>)
    ensures By(pid, a + b) == By(pid, a) + By(pid, b)
  {
  }

  /** A turn before recording either goes on with the acts in their order, or gives up; the marker
      comes only last, and recording writes none. */
  ghost predicate Orderly(p: Proc, t: Turn) {
    && (Held(t.proc.pc) || t.proc.pc.Finished?)
    && (BeforeRecord(t.proc.pc) ==> BeforeRecord(p.pc) && Done(t.proc.pc, t.proc.fp) == Done(p.pc, p.fp) + t.acts)
    && |t.acts| <= 1
    && (forall k :: 0 <= k < |t.acts| && t.acts[k].MarkerWritten? ==>
          BeforeRecord(p.pc) && Done(p.pc, p.fp) + t.acts == RepairActs(t.acts[k].fp))
  }

  lemma InspectIsOrderly(host: Host, w: World, p: Proc, c: Choice)
    requires Inspecting(p.pc)
    ensures Orderly(p, Inspect(host, w, p, c))
  {
  }

  lemma RepairIsOrderly(host: Host, w: World, p: Proc, c: Choice)
    requires Repairing(p.pc)
    ensures Orderly(p, Repair(host, w, p, c))
  {
  }

  lemma ValidateIsOrderly(host: Host, w: World, p: Proc, c: Choice)
    requires Validating(p.pc)
    ensures Orderly(p, Validate(host, w, p, c))
  {
  }

  lemma ConcludeIsOrderly(host: Host, w: World, p: Proc, c: Choice)
    requires Concluding(p.pc)
    ensures Orderly(p, Conclude(host, w, p, c))
  {
  }

  lemma GoIsOrderly(host: Host, w: World, p: Proc, c: Choice)
    requires Held(p.pc)
    ensures Orderly(p, Go(host, w, p, c))
  {
    if Inspecting(p.pc) { InspectIsOrderly(host, w, p, c); }
    else if Repairing(p.pc) { RepairIsOrderly(host, w, p, c); }
    else if Validating(p.pc) { ValidateIsOrderly(host, w, p, c); }
    else { ConcludeIsOrderly(host, w, p, c); }
  }

  lemma ActsAreEarned(trace: seq<Event>, pid: nat, p: Proc, t: Turn)
    requires MarkersEarned(trace) && Orderly(p, t)
    requires BeforeRecord(p.pc) ==> EndsWith(trace, By(pid, Done(p.pc, p.fp)))
    ensures MarkersEarned(trace + By(pid, t.acts))
    ensures BeforeRecord(t.proc.pc) ==> EndsWith(trace + By(pid, t.acts), By(pid, Done(t.proc.pc, t.proc.fp)))
  {
    var acts := By(pid, t.acts);
    if BeforeRecord(p.pc) {
      ByAppend(pid, Done(p.pc, p.fp), t.acts);
      EndsWithAppend(trace, By(pid, Done(p.pc, p.fp)), acts);
      if |t.acts| == 1 {
        assert (trace + acts)[..|trace| + 1] == trace + acts;
      }
    }
    EarnedStays(trace, acts);
  }

  lemma AfterKeepsInv(sys: System, pid: nat, t: Turn)
    requires Inv(sys) && pid in sys.procs && Held(sys.procs[pid].pc) && Orderly(sys.procs[pid], t)
    ensures Inv(After(sys, pid, t))
  {
    ActsAreEarned(sys.trace, pid, sys.procs[pid], t);
    EarnedStays(sys.trace + By(pid, t.acts), [Event(pid, Released)]);
  }

  lemma AcquireKeepsInv(sys: System, pid: nat)
    requires Inv(sys) && pid in sys.procs && sys.procs[pid].pc.Acquire? && sys.lock.None?
    ensures Inv(sys.(procs := sys.procs[pid := ENTERED], lock := Some(pid), trace := sys.trace + [Event(pid, Acquired)]))
  {
    var sys' := sys.(procs := sys.procs[pid := ENTERED], lock := Some(pid), trace := sys.trace + [Event(pid, Acquired)]);
    EarnedStays(sys.trace, [Event(pid, Acquired)]);
    assert By(pid, [Acquired]) == [Event(pid, Acquired)];
    assert sys'.trace[|sys'.trace| - 1..] == [Event(pid, Acquired)];
  }

  /** A process that does not hold the lock may change at will, and so may the world. */
  lemma UnheldKeepsInv(sys: System, pid: nat, p: Proc, world: World)
    requires Inv(sys) && !Held(p.pc)
    ensures Inv(System(world, sys.procs[pid := p], sys.lock, sys.trace))
  {
  }

  lemma ApproachKeepsInv(sys: System, pid: nat, c: Choice)
    requires Inv(sys) && pid in sys.procs && !Held(sys.procs[pid].pc)
    ensures Inv(Approach(sys, pid, c))
  {
    var sys' := Approach(sys, pid, c);
    if sys'.procs[pid].pc.Uv? {
      AcquireKeepsInv(sys, pid);
    } else if sys' != sys {
      UnheldKeepsInv(sys, pid, sys'.procs[pid], sys'.world);
    }
  }

  lemma HeldStepKeepsInv(host: Host, sys: System, pid: nat, c: Choice)
    requires Inv(sys) && pid in sys.procs && Held(sys.procs[pid].pc)
    ensures Inv(After(sys, pid, Go(host, sys.world, sys.procs[pid], c)))
  {
    GoIsOrderly(host, sys.world, sys.procs[pid], c);
    AfterKeepsInv(sys, pid, Go(host, sys.world, sys.procs[pid], c));
  }

  lemma ApplyKeepsInv(host: Host, sys: System, m: Move)
    requires Inv(sys)
    ensures Inv(Apply(host, sys, m))
  {
    match m
    case Start(pid) =>
    case Outside(world) =>
    case Crash(pid) =>
      EarnedStays(sys.trace, [Event(pid, Crashed)]);
    case Step(pid, c) =>
      if pid in sys.procs {
        if Held(sys.procs[pid].pc) { HeldStepKeepsInv(host, sys, pid, c); } else { ApproachKeepsInv(sys, pid, c); }
      }
  }

  lemma {:induction false} RunKeepsInv(host: Host, w: World, moves: seq<Move>)
    ensures Inv(Run(host, w, moves))
  {
    if moves != [] {
      RunKeepsInv(host, w, moves[..|moves| - 1]);
      ApplyKeepsInv(host, Run(host, w, moves[..|moves| - 1]), moves[|moves| - 1]);
    }
  }

  /** In every interleaving of any processes, with crashes and outside changes at any point: a
      marker for `f` is only ever written by a process that, since it took the lock and with no
      other lock holder in between, removed the old marker, installed the hooks, synced, warmed up,
      installed again, passed the locked check for `f`, saw current hooks and wrote the sentinel
      for `f`, in this order. */
  lemma MarkersAreEarned(host: Host, w: World, moves: seq<Move>, k: int)
    requires 0 <= k < |Run(host, w, moves).trace| && Run(host, w, moves).trace[k].act.MarkerWritten?
    ensures var trace := Run(host, w, moves).trace;
            var f, pid := trace[k].act.fp, trace[k].pid;
            k >= 9 && trace[k - 9..k + 1] == By(pid, RepairActs(f))
  {
    RunKeepsInv(host, w, moves);
    var trace := Run(host, w, moves).trace;
    assert EarnedAt(trace, k);
    assert trace[..k + 1][k + 1 - 10..] == trace[k - 9..k + 1];
  }

  // ---- The marker on disk -----------------------------------------------------------------------------

  /** Outsiders may change everything but the marker. */
  ghost predicate MarkerUntouched(host: Host, w: World, moves: seq<Move>) {
    forall i :: 0 <= i < |moves| && moves[i].Outside? ==> moves[i].world.marker == Run(host, w, moves[..i]).world.marker
  }

  ghost predicate MarkerFor(m: Marker, fp: string) {
    m.Marker? && m.content.Object? && "fingerprint" in m.content.fields && m.content.fields["fingerprint"] == Str(fp)
  }

  /** The marker `m` was written at `k` and not removed since. */
  ghost predicate WrittenAt(m: Marker, trace: seq<Event>, k: int) {
    && 0 <= k < |trace| && trace[k].act.MarkerWritten? && MarkerFor(m, trace[k].act.fp)
    && forall j :: k < j < |trace| ==> !trace[j].act.Unmarked?
  }

  predicate MidRepair(pc: Pc) {
    pc.OwnA? || pc.InstallA? || pc.Sync? || pc.Prewarm? || pc.OwnB? || pc.InstallB? || pc.Python2? || pc.Print2?
    || pc.Check? || pc.Current? || pc.PutSentinel? || pc.PutMarker?
  }

  ghost predicate DiskInv(sys: System) {
    && Inv(sys)
    && (forall pid :: pid in sys.procs && MidRepair(sys.procs[pid].pc) ==> sys.world.marker.NoMarker?)
    && (sys.world.marker.Marker? ==> exists k :: WrittenAt(sys.world.marker, sys.trace, k))
  }

  /** The things a turn can do to the marker, each with its act. */
  ghost predicate MarkerTurn(w: World, p: Proc, t: Turn) {
    && (|| (t.world.marker == w.marker && forall k :: 0 <= k < |t.acts| ==> !t.acts[k].Unmarked?)
        || t.world.marker.NoMarker?
        || (t.acts == [MarkerWritten(p.fp)] && MarkerFor(t.world.marker, p.fp)))
    && (MidRepair(t.proc.pc) ==> t.world.marker == if MidRepair(p.pc) then w.marker else NoMarker)
  }

  lemma InspectAndMarker(host: Host, w: World, p: Proc, c: Choice)
    requires Inspecting(p.pc)
    ensures MarkerTurn(w, p, Inspect(host, w, p, c))
  {
  }

  lemma RepairAndMarker(host: Host, w: World, p: Proc, c: Choice)
    requires Repairing(p.pc)
    ensures MarkerTurn(w, p, Repair(host, w, p, c))
  {
  }

  lemma ValidateAndMarker(host: Host, w: World, p: Proc, c: Choice)
    requires Validating(p.pc)
    ensures MarkerTurn(w, p, Validate(host, w, p, c))
  {
  }

  lemma ConcludeAndMarker(host: Host, w: World, p: Proc, c: Choice)
    requires Concluding(p.pc)
    ensures MarkerTurn(w, p, Conclude(host, w, p, c))
  {
  }

  lemma GoAndMarker(host: Host, w: World, p: Proc, c: Choice)
    requires Held(p.pc)
    ensures MarkerTurn(w, p, Go(host, w, p, c))
  {
    if Inspecting(p.pc) { InspectAndMarker(host, w, p, c); }
    else if Repairing(p.pc) { RepairAndMarker(host, w, p, c); }
    else if Validating(p.pc) { ValidateAndMarker(host, w, p, c); }
    else { ConcludeAndMarker(host, w, p, c); }
  }

  lemma StillWritten(m: Marker, trace: seq<Event>, more: seq<Event>, k: int)
    requires WrittenAt(m, trace, k) && forall j :: 0 <= j < |more| ==> !more[j].act.Unmarked?
    ensures WrittenAt(m, trace + more, k)
  {
  }

  lemma AfterIsWritten(sys: System, pid: nat, p: Proc, t: Turn)
    requires MarkerTurn(sys.world, p, t) && t.world.marker.Marker?
    requires sys.world.marker.Marker? ==> exists k :: WrittenAt(sys.world.marker, sys.trace, k)
    ensures exists k :: WrittenAt(t.world.marker, After(sys, pid, t).trace, k)
  {
    var acts, end := By(pid, t.acts), if t.proc.pc.Finished? then [Event(pid, Released)] else [];
    assert After(sys, pid, t).trace == sys.trace + (acts + end);
    if t.acts == [MarkerWritten(p.fp)] && MarkerFor(t.world.marker, p.fp) {
      assert WrittenAt(t.world.marker, sys.trace + (acts + end), |sys.trace|);
    } else {
      var k :| WrittenAt(sys.world.marker, sys.trace, k);
      StillWritten(sys.world.marker, sys.trace, acts + end, k);
    }
  }

  lemma AfterKeepsDisk(sys: System, pid: nat, t: Turn)
    requires DiskInv(sys) && pid in sys.procs && Held(sys.procs[pid].pc)
    requires Inv(After(sys, pid, t)) && MarkerTurn(sys.world, sys.procs[pid], t)
    ensures DiskInv(After(sys, pid, t))
  {
    var sys' := After(sys, pid, t);
    if t.world.marker.Marker? {
      AfterIsWritten(sys, pid, sys.procs[pid], t);
    }
    forall q | q in sys'.procs && MidRepair(sys'.procs[q].pc) ensures sys'.world.marker.NoMarker? {
      if q != pid { assert Held(sys.procs[q].pc); }
    }
  }

  /** Anything but a lock holder's turn leaves the marker and the acts on it alone. */
  lemma OtherMovesKeepDisk(sys: System, sys': System)
    requires DiskInv(sys) && Inv(sys') && sys'.world.marker == sys.world.marker
    requires sys.trace <= sys'.trace && forall k :: |sys.trace| <= k < |sys'.trace| ==> !sys'.trace[k].act.Unmarked?
    requires forall pid :: pid in sys'.procs && MidRepair(sys'.procs[pid].pc) ==>
               pid in sys.procs && sys.procs[pid] == sys'.procs[pid]
    ensures DiskInv(sys')
  {
    if sys.world.marker.Marker? {
      var k :| WrittenAt(sys.world.marker, sys.trace, k);
      var more := sys'.trace[|sys.trace|..];
      assert sys'.trace == sys.trace + more;
      StillWritten(sys.world.marker, sys.trace, more, k);
    }
  }

  lemma HeldStepKeepsDisk(host: Host, sys: System, pid: nat, c: Choice)
    requires DiskInv(sys) && pid in sys.procs && Held(sys.procs[pid].pc)
    ensures DiskInv(After(sys, pid, Go(host, sys.world, sys.procs[pid], c)))
  {
    HeldStepKeepsInv(host, sys, pid, c);
    GoAndMarker(host, sys.world, sys.procs[pid], c);
    AfterKeepsDisk(sys, pid, Go(host, sys.world, sys.procs[pid], c));
  }

  lemma AcquireKeepsDisk(sys: System, pid: nat)
    requires DiskInv(sys) && pid in sys.procs && sys.procs[pid].pc.Acquire? && sys.lock.None?
    ensures DiskInv(sys.(procs := sys.procs[pid := ENTERED], lock := Some(pid), trace := sys.trace + [Event(pid, Acquired)]))
  {
    AcquireKeepsInv(sys, pid);
    OtherMovesKeepDisk(
      sys, sys.(procs := sys.procs[pid := ENTERED], lock := Some(pid), trace := sys.trace + [Event(pid, Acquired)]));
  }

  lemma UnheldKeepsDisk(sys: System, pid: nat, p: Proc, world: World)
    requires DiskInv(sys) && !Held(p.pc) && world.marker == sys.world.marker
    ensures DiskInv(System(world, sys.procs[pid := p], sys.lock, sys.trace))
  {
    UnheldKeepsInv(sys, pid, p, world);
    OtherMovesKeepDisk(sys, System(world, sys.procs[pid := p], sys.lock, sys.trace));
  }

  lemma ApproachKeepsDisk(sys: System, pid: nat, c: Choice)
    requires DiskInv(sys) && pid in sys.procs && !Held(sys.procs[pid].pc)
    ensures DiskInv(Approach(sys, pid, c))
  {
    var sys' := Approach(sys, pid, c);
    if sys'.procs[pid].pc.Uv? {
      AcquireKeepsDisk(sys, pid);
    } else if sys' != sys {
      UnheldKeepsDisk(sys, pid, sys'.procs[pid], sys'.world);
    }
  }

  lemma ApplyKeepsDisk(host: Host, sys: System, m: Move)
    requires DiskInv(sys) && (m.Outside? ==> m.world.marker == sys.world.marker)
    ensures DiskInv(Apply(host, sys, m))
  {
    if m.Step? && m.pid in sys.procs {
      if Held(sys.procs[m.pid].pc) {
        HeldStepKeepsDisk(host, sys, m.pid, m.choice);
      } else {
        ApproachKeepsDisk(sys, m.pid, m.choice);
      }
    } else {
      ApplyKeepsInv(host, sys, m);
      OtherMovesKeepDisk(sys, Apply(host, sys, m));
    }
  }

  lemma {:induction false} RunKeepsDisk(host: Host, w: World, moves: seq<Move>)
    requires w.marker.NoMarker? && MarkerUntouched(host, w, moves)
    ensures DiskInv(Run(host, w, moves))
  {
    if moves != [] {
      var n := |moves| - 1;
      var before := moves[..n];
      assert forall i :: 0 <= i < n ==> before[..i] == moves[..i];
      RunKeepsDisk(host, w, before);
      ApplyKeepsDisk(host, Run(host, w, before), moves[n]);
    }
  }

  /** As long as nobody else writes markers, the marker on disk is always one that a complete
      repair wrote last, whatever crashed since; and no marker is there while a repair is under
      way, so a crash in the middle of one leaves none. */
  lemma MarkerOnDiskIsEarned(host: Host, w: World, moves: seq<Move>)
    requires w.marker.NoMarker? && MarkerUntouched(host, w, moves)
    ensures var sys := Run(host, w, moves);
            && (sys.world.marker.Marker? ==>
                  exists k :: WrittenAt(sys.world.marker, sys.trace, k) && k >= 9
                    && sys.trace[k - 9..k + 1] == By(sys.trace[k].pid, RepairActs(sys.trace[k].act.fp)))
            && (forall pid :: pid in sys.procs && MidRepair(sys.procs[pid].pc) ==> sys.world.marker.NoMarker?)
  {
    RunKeepsDisk(host, w, moves);
    var sys := Run(host, w, moves);
    if sys.world.marker.Marker? {
      var k :| WrittenAt(sys.world.marker, sys.trace, k);
      MarkersAreEarned(host, w, moves, k);
    }
  }
}
