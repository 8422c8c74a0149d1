/** READY among other processes: what it stands for does not depend on being alone. */
module BootstrapTogether {
  import opened Basics
  import opened Bootstrap
  import opened BootstrapReady
  import opened BootstrapRuns

  /** Outsiders keep their hands off while somebody holds the lock. */
  ghost predicate OutsideWaits(host: Host, w: World, moves: seq<Move>) {
    forall i :: 0 <= i < |moves| && moves[i].Outside? ==> Run(host, w, moves[..i]).lock.None?
  }

  /** What the lock holder has found out is still so. */
  ghost predicate HolderIsRight(host: Host, sys: System) {
    forall pid :: pid in sys.procs && Held(sys.procs[pid].pc) ==> Alone(host, sys.world, sys.procs[pid])
  }

  lemma PathsMakeNoDifference(host: Host, w: World, p: Proc)
    ensures Alone(host, w.(paths := InOrder), p) == Alone(host, w, p)
  {
  }

  lemma ApproachStaysRight(host: Host, sys: System, pid: nat, c: Choice)
    requires HolderIsRight(host, sys) && pid in sys.procs && !Held(sys.procs[pid].pc)
    ensures HolderIsRight(host, Approach(sys, pid, c))
  {
    var sys' := Approach(sys, pid, c);
    forall q | q in sys'.procs && Held(sys'.procs[q].pc) ensures Alone(host, sys'.world, sys'.procs[q]) {
      if q != pid { PathsMakeNoDifference(host, sys.world, sys.procs[q]); }
    }
  }

  lemma TurnStaysRight(host: Host, sys: System, pid: nat, c: Choice)
    requires Inv(sys) && HolderIsRight(host, sys) && pid in sys.procs && Held(sys.procs[pid].pc)
    ensures var t := Go(host, sys.world, sys.procs[pid], c);
            HolderIsRight(host, After(sys, pid, t)) && Alone(host, t.world, t.proc)
  {
    StaysAlone(host, sys.world, sys.procs[pid], c);
    OnlyOneTurns(host, sys, pid, Go(host, sys.world, sys.procs[pid], c));
  }

  lemma OnlyOneTurns(host: Host, sys: System, pid: nat, t: Turn)
    requires Inv(sys) && pid in sys.procs && Held(sys.procs[pid].pc) && Alone(host, t.world, t.proc)
    ensures HolderIsRight(host, After(sys, pid, t))
  {
    var sys' := After(sys, pid, t);
    forall q | q in sys'.procs && Held(sys'.procs[q].pc) ensures q == pid {
    }
  }

  lemma ApplyStaysRight(host: Host, sys: System, m: Move)
    requires Inv(sys) && HolderIsRight(host, sys) && (m.Outside? ==> sys.lock.None?)
    ensures HolderIsRight(host, Apply(host, sys, m))
  {
    match m
    case Start(pid) =>
    case Crash(pid) =>
    case Outside(world) =>
    case Step(pid, c) =>
      if pid in sys.procs {
        if Held(sys.procs[pid].pc) { TurnStaysRight(host, sys, pid, c); } else { ApproachStaysRight(host, sys, pid, c); }
      }
  }

  lemma {:induction false} RunStaysRight(host: Host, w: World, moves: seq<Move>)
    requires OutsideWaits(host, w, moves)
    ensures HolderIsRight(host, Run(host, w, moves))
  {
    if moves != [] {
      var n := |moves| - 1;
      var before := moves[..n];
      assert forall i :: 0 <= i < n ==> before[..i] == moves[..i];
      RunStaysRight(host, w, before);
      RunKeepsInv(host, w, before);
      ApplyStaysRight(host, Run(host, w, before), moves[n]);
    }
  }

  /** The last move is the one with which process `pid`, holding the lock, comes to its end. */
  ghost predicate FinishesNow(host: Host, w: World, moves: seq<Move>, pid: nat) {
    && moves != [] && moves[|moves| - 1].Step? && moves[|moves| - 1].pid == pid
    && var before, after := Run(host, w, moves[..|moves| - 1]), Run(host, w, moves);
    && pid in before.procs && Held(before.procs[pid].pc)
    && pid in after.procs && after.procs[pid].pc.Finished?
  }

  /** In every interleaving of any processes, with crashes anywhere and with outside changes whenever
      nobody holds the lock: a process that finishes READY leaves a workspace that is healthy under
      its fingerprint, whatever the others were doing meanwhile. */
  lemma ReadyAmongOthers(host: Host, w: World, moves: seq<Move>, pid: nat)
    requires OutsideWaits(host, w, moves) && FinishesNow(host, w, moves, pid)
    ensures var sys := Run(host, w, moves);
            ReadyIsHealthy(host, sys.world, sys.procs[pid].outcome)
  {
    var n := |moves| - 1;
    var before := moves[..n];
    assert forall i :: 0 <= i < n ==> before[..i] == moves[..i];
    RunStaysRight(host, w, before);
    RunKeepsInv(host, w, before);
    TurnStaysRight(host, Run(host, w, before), pid, moves[n].choice);
  }
}
