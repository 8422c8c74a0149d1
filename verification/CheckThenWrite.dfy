/** Check and write as the program makes them: two calls, with other boards' calls in between. */
module CheckThenWrite {
  import opened Basics
  import opened Sorting
  import opened Blackboards

  /** A row that passed the check when the log had `at` rows, and has not been written yet. */
  datatype Passed = Passed(writer: string, entry: Entry, at: nat)

  datatype System = System(rows: seq<Entry>, passed: map<nat, Passed>)

  datatype Event =
    | Check(board: nat, writer: string, entry: Entry)
    | Write(board: nat)

  function RowOf(p: Passed): Entry {
    p.entry.(runId := p.writer)
  }

  function Step(sys: System, ev: Event): System {
    match ev
    case Check(board, writer, entry) =>
      if Detect(writer, entry, Query(sys.rows, entry.kind)) == []
      then sys.(passed := sys.passed[board := Passed(writer, entry, |sys.rows|)])
      else sys.(passed := sys.passed - {board})
    case Write(board) =>
      if board !in sys.passed then sys
      else
        var p := sys.passed[board];
        System(if IdTaken(sys.rows, p.entry.id) then sys.rows else sys.rows + [RowOf(p)], sys.passed - {board})
  }

  function Run(events: seq<Event>): System {
    if events == [] then System([], map[]) else Step(Run(events[..|events| - 1]), events[|events| - 1])
  }

  /** Row `k` and the passed row have to be ordered, and are not. */
  ghost predicate Clash(rows: seq<Entry>, p: Passed, k: int)
    requires 0 <= k < |rows|
  {
    rows[k].kind == p.entry.kind && !Follows(rows[k], RowOf(p)) && Overlaps(rows[k], p.entry)
  }

  /** What was there at the check does not clash with what passed it, unless it has its id, and then
      the write is refused. */
  ghost predicate Vetted(rows: seq<Entry>, p: Passed) {
    p.at <= |rows| && forall k :: 0 <= k < p.at ==> rows[k].id == p.entry.id || !Clash(rows, p, k)
  }

  ghost predicate AllVetted(sys: System) {
    forall b :: b in sys.passed ==> Vetted(sys.rows, sys.passed[b])
  }

  lemma CheckVets(rows: seq<Entry>, writer: string, entry: Entry)
    requires Detect(writer, entry, Query(rows, entry.kind)) == []
    ensures Vetted(rows, Passed(writer, entry, |rows|))
  {
    var p := Passed(writer, entry, |rows|);
    PassesIff(writer, entry, Query(rows, entry.kind));
    forall k | 0 <= k < |rows| ensures rows[k].id == entry.id || !Clash(rows, p, k) {
      QueryMembers(rows, entry.kind, rows[k]);
      OverlapsSymmetric(rows[k], entry);
    }
  }

  lemma StillVetted(rows: seq<Entry>, row: Entry, p: Passed)
    requires Vetted(rows, p)
    ensures Vetted(rows + [row], p)
  {
    forall k | 0 <= k < p.at ensures rows[k].id == p.entry.id || !Clash(rows + [row], p, k) {
      assert (rows + [row])[k] == rows[k];
      assert rows[k].id == p.entry.id || !Clash(rows, p, k);
    }
  }

  lemma StepVets(sys: System, ev: Event)
    requires AllVetted(sys)
    ensures AllVetted(Step(sys, ev))
  {
    var sys' := Step(sys, ev);
    if ev.Check? && Detect(ev.writer, ev.entry, Query(sys.rows, ev.entry.kind)) == [] {
      CheckVets(sys.rows, ev.writer, ev.entry);
    }
    forall b | b in sys'.passed && b in sys.passed ensures Vetted(sys'.rows, sys.passed[b]) {
      if sys'.rows != sys.rows { StillVetted(sys.rows, sys'.rows[|sys.rows|], sys.passed[b]); }
    }
  }

  /** When a passed row is written, a coordinated log stays so if and only if nothing that was written
      between the check and the write clashes with it. */
  lemma WriteKeepsIff(rows: seq<Entry>, p: Passed)
    requires Coordinated(rows) && Vetted(rows, p) && !IdTaken(rows, p.entry.id)
    ensures Coordinated(rows + [RowOf(p)]) <==> forall k :: p.at <= k < |rows| ==> !Clash(rows, p, k)
  {
    var more := rows + [RowOf(p)];
    assert forall k :: 0 <= k < |rows| ==> more[k] == rows[k];
    forall k | 0 <= k < |rows| ensures Overlaps(rows[k], RowOf(p)) == Overlaps(rows[k], p.entry) {
      SameSets(rows[k], p);
    }
    if Coordinated(more) {
      forall k | p.at <= k < |rows| ensures !Clash(rows, p, k) {
        assert more[k] == rows[k] && more[|rows|] == RowOf(p);
      }
    } else {
      var i, j :| 0 <= i < j < |more| && more[i].kind == more[j].kind && !Follows(more[i], more[j])
                  && Overlaps(more[i], more[j]);
      if j == |rows| {
        assert more[i] == rows[i] && rows[i] in rows;
        assert Clash(rows, p, i);
      }
    }
  }

  lemma SameSets(e: Entry, p: Passed)
    ensures Overlaps(e, RowOf(p)) == Overlaps(e, p.entry)
  {
    assert RowOf(p).readSet == p.entry.readSet && RowOf(p).writeSet == p.entry.writeSet;
  }

  /** Between its check and its write, every row that another writer added is of another kind. */
  ghost predicate Undisturbed(rows: seq<Entry>, p: Passed) {
    forall k :: p.at <= k < |rows| ==> rows[k].kind != p.entry.kind || SameWriter(p.writer, rows[k])
  }

  ghost predicate AllUndisturbed(events: seq<Event>) {
    events != [] ==>
      var before, last := Run(events[..|events| - 1]), events[|events| - 1];
      && AllUndisturbed(events[..|events| - 1])
      && (last.Write? && last.board in before.passed ==> Undisturbed(before.rows, before.passed[last.board]))
  }

  /** In every interleaving of checks and writes in which no other writer's row of the same kind falls
      between a check and its write, the log stays coordinated, as if both were one step. */
  lemma {:induction false} UndisturbedIsCoordinated(events: seq<Event>)
    requires AllUndisturbed(events)
    ensures Coordinated(Run(events).rows) && AllVetted(Run(events))
  {
    if events != [] {
      var before, last := Run(events[..|events| - 1]), events[|events| - 1];
      UndisturbedIsCoordinated(events[..|events| - 1]);
      StepVets(before, last);
      if last.Write? && last.board in before.passed && !IdTaken(before.rows, before.passed[last.board].entry.id) {
        WriteKeepsIff(before.rows, before.passed[last.board]);
      }
    }
  }

  // ---- The race -----------------------------------------------------------------------------------

  const RACE := [Check(1, "w1", Plain("a", "file_version")), Check(2, "w2", Plain("b", "file_version")), Write(1), Write(2)]

  lemma FreeToWrite(writer: string, entry: Entry)
    ensures Detect(writer, entry, Query([], entry.kind)) == []
  {
  }

  /** Two boards whose checks both come before both writes leave two rows that write one file and
      are not ordered, though each of them passed the check. */
  lemma RaceIsUncoordinated()
    ensures var rows := Run(RACE).rows;
            |rows| == 2 && !Follows(rows[0], rows[1]) && Overlaps(rows[0], rows[1]) && !Coordinated(rows)
  {
    var a, b := Passed("w1", Plain("a", "file_version"), 0), Passed("w2", Plain("b", "file_version"), 0);
    FreeToWrite("w1", Plain("a", "file_version"));
    FreeToWrite("w2", Plain("b", "file_version"));
    assert RACE[..1] == [RACE[0]] && RACE[..1][..0] == [];
    assert Run(RACE[..1]) == System([], map[1 := a]);
    assert RACE[..2][..1] == RACE[..1];
    assert Run(RACE[..2]) == System([], map[1 := a, 2 := b]);
    assert RACE[..3][..2] == RACE[..2];
    assert Run(RACE[..3]) == System([RowOf(a)], map[2 := b]);
    assert RACE[..4] == RACE && RACE[..4][..3] == RACE[..3];
    var rows := Run(RACE).rows;
    assert rows == [RowOf(a), RowOf(b)];
    assert "f" in rows[0].writeSet + rows[0].readSet && "f" in rows[1].writeSet + rows[1].readSet;
    assert "f" in rows[0].writeSet;
  }
}
