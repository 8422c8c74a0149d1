/** The append-only blackboard: rows with read sets, write sets, writers and parent
    links, and the check that decides whether a row may land. */
module Blackboards {
  import opened Basics
  import opened Sorting

  datatype Payload = Payload(logicalId: Option<string>, fileHash: Option<string>)

  datatype Entry = Entry(
    id: string,
    kind: string,
    contentHash: string,
    parentId: Option<string>,
    readSet: seq<string>,
    writeSet: seq<string>,
    assumptions: seq<string>,
    versions: map<string, string>,
    timestamp: int,
    payload: Payload,
    runId: string)

  datatype Reason =
    | WriteWrite(paths: set<string>)
    | StaleRead(paths: set<string>)
    | InvalidatedRead(paths: set<string>)
    | BrokenAssumption(text: string)

  datatype Conflict = Conflict(
    entryId: string,
    conflictingId: string,
    reasons: seq<Reason>,
    overlap: set<string>,
    assumption: Option<string>)

  const BASE_COMMIT := "base_commit"

  /** A row that writes one file and says nothing else. */
  function Plain(id: string, kind: string): Entry {
    Entry(id, kind, "", None, [], ["f"], [], map[], 0, Payload(None, None), "")
  }

  // ---- The pairwise check ---------------------------------------------------

  /** Python's `needle in hay` on strings. */
  predicate Mentions(hay: string, needle: string) {
    exists i :: 0 <= i <= |hay| && OccursAt(hay, needle, i)
  }

  predicate OccursAt(hay: string, needle: string, i: int)
    requires 0 <= i <= |hay|
  {
    i + |needle| <= |hay| && hay[i..i + |needle|] == needle
  }

  function ToSet(s: seq<string>): set<string> {
    set p | p in s
  }

  predicate SameWriter(writer: string, prior: Entry) {
    writer != "" && prior.runId != "" && writer == prior.runId
  }

  /** A value that Python treats as true: present and not empty. */
  predicate Truthy(v: Option<string>) {
    v.Some? && v.value != ""
  }

  function Lookup(m: map<string, string>, k: string): Option<string> {
    if k in m then Some(m[k]) else None
  }

  predicate DivergentBases(entry: Entry, prior: Entry) {
    var newBase, oldBase := Lookup(entry.versions, BASE_COMMIT), Lookup(prior.versions, BASE_COMMIT);
    Truthy(newBase) && Truthy(oldBase) && newBase != oldBase
  }

  predicate NamesBase(text: string, prior: Entry)
    requires BASE_COMMIT in prior.versions
  {
    Mentions(text, prior.versions[BASE_COMMIT]) || Mentions(text, BASE_COMMIT)
  }

  predicate NamesWrite(text: string, prior: Entry) {
    exists f :: f in prior.writeSet && Mentions(text, f)
  }

  function First(p: string -> bool, s: seq<string>): Option<string> {
    if s == [] then None
    else if p(s[0]) then Some(s[0])
    else First(p, s[1..])
  }

  /** The assumption of `entry` that `prior` breaks, base commits first. */
  function AssumptionViolated(entry: Entry, prior: Entry): Option<string> {
    var byBase :=
      if DivergentBases(entry, prior)
      then First(text => BASE_COMMIT in prior.versions && NamesBase(text, prior), entry.assumptions)
      else None;
    if byBase.Some? then byBase
    else if prior.contentHash != entry.contentHash
    then First(text => NamesWrite(text, prior), entry.assumptions)
    else None
  }

  function WwOverlap(entry: Entry, prior: Entry): set<string> {
    ToSet(entry.writeSet) * ToSet(prior.writeSet)
  }

  function RwOverlap(entry: Entry, prior: Entry): set<string> {
    ToSet(entry.readSet) * ToSet(prior.writeSet)
  }

  function WrOverlap(entry: Entry, prior: Entry): set<string> {
    ToSet(prior.readSet) * ToSet(entry.writeSet)
  }

  function Reasons(ww: set<string>, rw: set<string>, wr: set<string>, broken: Option<string>): seq<Reason> {
    (if ww != {} then [WriteWrite(ww)] else [])
    + (if rw != {} then [StaleRead(rw)] else [])
    + (if wr != {} then [InvalidatedRead(wr)] else [])
    + (if Truthy(broken) then [BrokenAssumption(broken.value)] else [])
  }

  /** The body of the detection loop for one earlier row. */
  function Compare(writer: string, entry: Entry, prior: Entry): Option<Conflict> {
    if prior.id == entry.id then None
    else if SameWriter(writer, prior) then None
    else if entry.parentId == Some(prior.id) then None
    else
      var ww, rw, wr := WwOverlap(entry, prior), RwOverlap(entry, prior), WrOverlap(entry, prior);
      var broken := AssumptionViolated(entry, prior);
      if ww + rw + wr != {} || Truthy(broken)
      then Some(Conflict(entry.id, prior.id, Reasons(ww, rw, wr, broken), ww + rw + wr, broken))
      else None
  }

  // ---- What the check means ---------------------------------------------------

  /** One of the two touches a path that the other one writes. */
  ghost predicate Overlaps(a: Entry, b: Entry) {
    exists p :: p in a.writeSet + a.readSet && p in b.writeSet + b.readSet
                && (p in a.writeSet || p in b.writeSet)
  }

  /** `prior` contradicts the assumption: it stands on another base that the text speaks of, or
      has other content and writes a path that the text mentions. */
  ghost predicate Broken(text: string, entry: Entry, prior: Entry) {
    || (DivergentBases(entry, prior) && NamesBase(text, prior))
    || (entry.contentHash != prior.contentHash && NamesWrite(text, prior))
  }

  ghost predicate BreaksSomeAssumption(entry: Entry, prior: Entry) {
    exists text :: text in entry.assumptions && Broken(text, entry, prior)
  }

  /** The broken assumption that is found first is the empty text, which Python takes for
      "nothing found": it is listed first and the old row claims to write the empty path. */
  ghost predicate BlankAssumptionFirst(entry: Entry, prior: Entry) {
    && entry.assumptions != [] && entry.assumptions[0] == ""
    && "" in prior.writeSet
    && entry.contentHash != prior.contentHash
    && !(DivergentBases(entry, prior)
         && exists text :: text in entry.assumptions && NamesBase(text, prior))
  }

  /** Which earlier rows must be reported. */
  ghost predicate MustReport(writer: string, entry: Entry, prior: Entry) {
    && prior.id != entry.id
    && !(writer != "" && writer == prior.runId)
    && entry.parentId != Some(prior.id)
    && (Overlaps(entry, prior)
        || (BreaksSomeAssumption(entry, prior) && !BlankAssumptionFirst(entry, prior)))
  }

  lemma {:induction false} FirstFinds(p: string -> bool, s: seq<string>)
    ensures First(p, s).Some? <==> exists x :: x in s && p(x)
    ensures First(p, s).Some? ==> First(p, s).value in s && p(First(p, s).value)
    ensures s != [] && p(s[0]) ==> First(p, s) == Some(s[0])
  {
    if s != [] {
      FirstFinds(p, s[1..]);
      assert s == [s[0]] + s[1..];
    }
  }

  lemma MentionsEmpty(hay: string)
    ensures Mentions(hay, "")
    ensures forall needle :: Mentions("", needle) ==> needle == ""
  {
    assert OccursAt(hay, "", 0);
  }

  /** The violated assumption that the check acts on is there exactly when some assumption is
      broken, except in the one case where the first hit is the empty text. */
  lemma AssumptionReportedIff(entry: Entry, prior: Entry)
    ensures Truthy(AssumptionViolated(entry, prior))
            <==> BreaksSomeAssumption(entry, prior) && !BlankAssumptionFirst(entry, prior)
    ensures AssumptionViolated(entry, prior).Some? ==>
              var text := AssumptionViolated(entry, prior).value;
              text in entry.assumptions && Broken(text, entry, prior)
  {
    var base := text => BASE_COMMIT in prior.versions && NamesBase(text, prior);
    var path := text => NamesWrite(text, prior);
    FirstFinds(base, entry.assumptions);
    FirstFinds(path, entry.assumptions);
    MentionsEmpty("");
    forall text | text in entry.assumptions && "" in prior.writeSet ensures NamesWrite(text, prior) {
      MentionsEmpty(text);
    }
    assert path("") ==> "" in prior.writeSet;
    if DivergentBases(entry, prior) && First(base, entry.assumptions).Some? {
      assert First(base, entry.assumptions).value != "";
    }
  }

  /** The excepted case exists: a broken assumption with an empty text goes unreported, also when
      another broken one stands behind it. */
  lemma BlankAssumptionHides()
    ensures var entry := Entry("n", "plan", "h", None, [], [], ["", "f stays"], map[], 0, Payload(None, None), "");
            var prior := Entry("o", "plan", "g", None, [], ["", "f"], [], map[], 0, Payload(None, None), "");
            && BreaksSomeAssumption(entry, prior) && BlankAssumptionFirst(entry, prior)
            && Broken("f stays", entry, prior)
            && Compare("w", entry, prior) == None
  {
    var entry := Entry("n", "plan", "h", None, [], [], ["", "f stays"], map[], 0, Payload(None, None), "");
    var prior := Entry("o", "plan", "g", None, [], ["", "f"], [], map[], 0, Payload(None, None), "");
    assert prior.writeSet[0] == "" && prior.writeSet[1] == "f";
    assert entry.assumptions[0] == "" && entry.assumptions[1] == "f stays";
    assert "f stays"[0..1] == "f";
    assert OccursAt("", "", 0) && OccursAt("f stays", "f", 0);
    assert Mentions("", prior.writeSet[0]) && Mentions("f stays", prior.writeSet[1]);
    assert Broken("", entry, prior);
    AssumptionReportedIff(entry, prior);
  }

  lemma OverlapMeans(entry: Entry, prior: Entry)
    ensures WwOverlap(entry, prior) + RwOverlap(entry, prior) + WrOverlap(entry, prior) != {} <==> Overlaps(entry, prior)
  {
    var all := WwOverlap(entry, prior) + RwOverlap(entry, prior) + WrOverlap(entry, prior);
    if all != {} {
      var p :| p in all;
      assert p in entry.writeSet + entry.readSet && p in prior.writeSet + prior.readSet;
    }
    if p :| p in entry.writeSet + entry.readSet && p in prior.writeSet + prior.readSet
            && (p in entry.writeSet || p in prior.writeSet) {
      assert p in all;
    }
  }

  /** What a reason says holds of the two rows. */
  ghost predicate Holds(r: Reason, entry: Entry, prior: Entry) {
    match r
    case WriteWrite(paths) => forall p :: p in paths <==> p in entry.writeSet && p in prior.writeSet
    case StaleRead(paths) => forall p :: p in paths <==> p in entry.readSet && p in prior.writeSet
    case InvalidatedRead(paths) => forall p :: p in paths <==> p in entry.writeSet && p in prior.readSet
    case BrokenAssumption(text) => text in entry.assumptions && Broken(text, entry, prior)
  }

  predicate Names(r: Reason, p: string) {
    !r.BrokenAssumption? && p in r.paths
  }

  /** Every reason is true, and every overlapping path is named by one. */
  ghost predicate Explained(entry: Entry, prior: Entry, c: Conflict) {
    && (forall r :: r in c.reasons ==> Holds(r, entry, prior))
    && (forall p :: p in c.overlap ==> exists r :: r in c.reasons && Names(r, p))
  }

  lemma ReasonsAre(ww: set<string>, rw: set<string>, wr: set<string>, broken: Option<string>)
    ensures forall r :: r in Reasons(ww, rw, wr, broken) ==>
              r == WriteWrite(ww) || r == StaleRead(rw) || r == InvalidatedRead(wr)
              || (Truthy(broken) && r == BrokenAssumption(broken.value))
    ensures forall p :: p in ww + rw + wr ==> exists r :: r in Reasons(ww, rw, wr, broken) && Names(r, p)
  {
    forall p | p in ww + rw + wr ensures exists r :: r in Reasons(ww, rw, wr, broken) && Names(r, p) {
      var r := if p in ww then WriteWrite(ww) else if p in rw then StaleRead(rw) else InvalidatedRead(wr);
      assert r in Reasons(ww, rw, wr, broken) && Names(r, p);
    }
  }

  /** The reasons that come with a conflict tell the truth and leave no overlapping path out. */
  lemma ReasonsExplain(writer: string, entry: Entry, prior: Entry)
    requires Compare(writer, entry, prior).Some?
    ensures Explained(entry, prior, Compare(writer, entry, prior).value)
  {
    var ww, rw, wr := WwOverlap(entry, prior), RwOverlap(entry, prior), WrOverlap(entry, prior);
    var broken := AssumptionViolated(entry, prior);
    ReasonsAre(ww, rw, wr, broken);
    assert Holds(WriteWrite(ww), entry, prior) && Holds(StaleRead(rw), entry, prior);
    assert Holds(InvalidatedRead(wr), entry, prior);
    assert broken.Some? ==> Holds(BrokenAssumption(broken.value), entry, prior) by {
      AssumptionReportedIff(entry, prior);
    }
  }

  lemma CompareIff(writer: string, entry: Entry, prior: Entry)
    ensures Compare(writer, entry, prior).Some? <==> MustReport(writer, entry, prior)
    ensures Compare(writer, entry, prior).Some? ==>
              var c := Compare(writer, entry, prior).value;
              && c.entryId == entry.id && c.conflictingId == prior.id
              && (forall p :: p in c.overlap <==>
                    p in entry.writeSet + entry.readSet && p in prior.writeSet + prior.readSet
                    && (p in entry.writeSet || p in prior.writeSet))
              && c.reasons != []
  {
    OverlapMeans(entry, prior);
    AssumptionReportedIff(entry, prior);
  }

  /** Without assumptions and parent links the verdict does not depend on which of the two
      rows came first, nor on any recorded version (in particular not on `base_commit`). */
  lemma VerdictIsSymmetric(a: Entry, b: Entry, versions: map<string, string>)
    requires a.assumptions == [] && b.assumptions == []
    requires a.parentId != Some(b.id) && b.parentId != Some(a.id)
    ensures Compare(a.runId, a, b).Some? <==> Compare(b.runId, b, a).Some?
    ensures Compare(a.runId, a.(versions := versions), b) == Compare(a.runId, a, b)
    ensures Compare(a.runId, a, b.(versions := versions)) == Compare(a.runId, a, b)
  {
    CompareIff(a.runId, a, b);
    CompareIff(b.runId, b, a);
    OverlapsSymmetric(a, b);
    VersionsDoNotMatter(a.runId, a, b, versions);
  }

  lemma VersionsDoNotMatter(writer: string, a: Entry, b: Entry, versions: map<string, string>)
    requires a.assumptions == []
    ensures Compare(writer, a.(versions := versions), b) == Compare(writer, a, b)
    ensures Compare(writer, a, b.(versions := versions)) == Compare(writer, a, b)
  {
    NothingAssumed(a, b);
    NothingAssumed(a.(versions := versions), b);
    NothingAssumed(a, b.(versions := versions));
  }

  lemma NothingAssumed(entry: Entry, prior: Entry)
    requires entry.assumptions == []
    ensures AssumptionViolated(entry, prior) == None
  {
  }

  lemma OverlapsSymmetric(a: Entry, b: Entry)
    ensures Overlaps(a, b) <==> Overlaps(b, a)
  {
    if Overlaps(a, b) {
      var p :| p in a.writeSet + a.readSet && p in b.writeSet + b.readSet && (p in a.writeSet || p in b.writeSet);
      assert p in b.writeSet + b.readSet;
    }
    if Overlaps(b, a) {
      var p :| p in b.writeSet + b.readSet && p in a.writeSet + a.readSet && (p in a.writeSet || p in b.writeSet);
      assert p in a.writeSet + a.readSet;
    }
  }

  // ---- Querying and detecting ---------------------------------------------------

  function ByTime(): (Entry, Entry) -> bool {
    (x: Entry, y: Entry) => x.timestamp <= y.timestamp
  }

  function OfKind(rows: seq<Entry>, kind: string): seq<Entry> {
    Filter((e: Entry) => e.kind == kind, rows)
  }

  /** The rows of one kind, oldest timestamp first, write order on ties. */
  function Query(rows: seq<Entry>, kind: string): seq<Entry> {
    Sort(ByTime(), OfKind(rows, kind))
  }

  lemma ByTimeIsPreorder()
    ensures Preorder(ByTime())
  {
  }

  lemma {:induction false} OfKindKeepsOrder(rows: seq<Entry>, kind: string)
    requires Sorted(ByTime(), rows)
    ensures Sorted(ByTime(), OfKind(rows, kind))
  {
    if rows != [] {
      OfKindKeepsOrder(rows[1..], kind);
      forall e ensures e in OfKind(rows[1..], kind) ==> rows[0].timestamp <= e.timestamp {
        FilterMember((x: Entry) => x.kind == kind, rows[1..], e);
      }
    }
  }

  /** While the clock does not run backwards, a query returns the rows in write order. */
  lemma QueryIsWriteOrder(rows: seq<Entry>, kind: string)
    requires Sorted(ByTime(), rows)
    ensures Query(rows, kind) == OfKind(rows, kind)
  {
    ByTimeIsPreorder();
    OfKindKeepsOrder(rows, kind);
    SortedIsFixed(ByTime(), OfKind(rows, kind));
  }

  lemma QueryMembers(rows: seq<Entry>, kind: string, e: Entry)
    ensures e in Query(rows, kind) <==> e in rows && e.kind == kind
  {
    SortPermutes(ByTime(), OfKind(rows, kind));
    FilterMember((x: Entry) => x.kind == kind, rows, e);
  }

  function Found(c: Option<Conflict>): seq<Conflict> {
    if c.Some? then [c.value] else []
  }

  function Detect(writer: string, entry: Entry, existing: seq<Entry>): seq<Conflict> {
    if existing == [] then []
    else Detect(writer, entry, existing[..|existing| - 1])
         + Found(Compare(writer, entry, existing[|existing| - 1]))
  }

  /** The rows that must be reported, in the order they have. */
  ghost function Reported(writer: string, entry: Entry, existing: seq<Entry>): seq<Entry> {
    if existing == [] then []
    else Reported(writer, entry, existing[..|existing| - 1])
         + (if MustReport(writer, entry, existing[|existing| - 1]) then [existing[|existing| - 1]] else [])
  }

  lemma {:induction false} DetectIsExact(writer: string, entry: Entry, existing: seq<Entry>)
    ensures |Detect(writer, entry, existing)| == |Reported(writer, entry, existing)|
    ensures forall k :: 0 <= k < |Detect(writer, entry, existing)| ==>
              Compare(writer, entry, Reported(writer, entry, existing)[k])
              == Some(Detect(writer, entry, existing)[k])
  {
    if existing != [] {
      var n := |existing| - 1;
      DetectIsExact(writer, entry, existing[..n]);
      CompareIff(writer, entry, existing[n]);
    }
  }

  lemma {:induction false} ReportedMembers(writer: string, entry: Entry, existing: seq<Entry>)
    ensures Reported(writer, entry, existing) == []
            <==> forall prior :: prior in existing ==> !MustReport(writer, entry, prior)
  {
    if existing != [] {
      var n := |existing| - 1;
      ReportedMembers(writer, entry, existing[..n]);
      assert existing == existing[..n] + [existing[n]];
    }
  }

  /** A row passes the check exactly when nothing has to be reported. */
  lemma PassesIff(writer: string, entry: Entry, existing: seq<Entry>)
    ensures Detect(writer, entry, existing) == []
            <==> forall prior :: prior in existing ==> !MustReport(writer, entry, prior)
  {
    DetectIsExact(writer, entry, existing);
    ReportedMembers(writer, entry, existing);
  }

  // ---- Guarded writes -----------------------------------------------------------

  predicate IdTaken(rows: seq<Entry>, id: string) {
    exists e :: e in rows && e.id == id
  }

  /** Check, then write, as one step; the row is stamped with the board's writer. */
  function Land(rows: seq<Entry>, writer: string, entry: Entry): seq<Entry> {
    if Detect(writer, entry, Query(rows, entry.kind)) != [] || IdTaken(rows, entry.id)
    then rows
    else rows + [entry.(runId := writer)]
  }

  datatype Attempt = Attempt(writer: string, entry: Entry)

  /** The log after any number of boards have tried to write, in the order given. */
  function LogAfter(attempts: seq<Attempt>): seq<Entry> {
    if attempts == [] then []
    else
      var n := |attempts| - 1;
      Land(LogAfter(attempts[..n]), attempts[n].writer, attempts[n].entry)
  }

  ghost predicate UniqueIds(rows: seq<Entry>) {
    forall i, j :: 0 <= i < j < |rows| ==> rows[i].id != rows[j].id
  }

  /** `later` is ordered after `earlier`: one writer made both, or it names it as parent. */
  ghost predicate Follows(earlier: Entry, later: Entry) {
    SameWriter(later.runId, earlier) || later.parentId == Some(earlier.id)
  }

  /** Rows that are not ordered have nothing to do with each other's files. */
  ghost predicate Coordinated(rows: seq<Entry>) {
    forall i, j :: 0 <= i < j < |rows| && rows[i].kind == rows[j].kind && !Follows(rows[i], rows[j])
      ==> !Overlaps(rows[i], rows[j])
  }

  lemma LandKeepsInvariants(rows: seq<Entry>, writer: string, entry: Entry)
    requires UniqueIds(rows) && Coordinated(rows)
    ensures UniqueIds(Land(rows, writer, entry)) && Coordinated(Land(rows, writer, entry))
    ensures rows <= Land(rows, writer, entry)
    ensures Land(rows, writer, entry) != rows ==>
              forall prior :: prior in rows && prior.kind == entry.kind && !Follows(prior, entry.(runId := writer))
                ==> !Overlaps(entry, prior) && !Overlaps(prior, entry)
  {
    if Land(rows, writer, entry) != rows {
      var row := entry.(runId := writer);
      PassesIff(writer, entry, Query(rows, entry.kind));
      forall prior | prior in rows && prior.kind == entry.kind && !Follows(prior, row)
        ensures !Overlaps(entry, prior) && !Overlaps(prior, entry)
      {
        QueryMembers(rows, entry.kind, prior);
        assert !MustReport(writer, entry, prior);
        OverlapsSymmetric(prior, entry);
      }
      forall i | 0 <= i < |rows| && rows[i].kind == row.kind && !Follows(rows[i], row)
        ensures !Overlaps(rows[i], row)
      {
        assert rows[i] in rows;
      }
    }
  }

  /** Every log that guarded writes can produce has unique ids, and any two of its rows of
      one kind are ordered by writer or parent, or touch none of each other's writes. */
  lemma {:induction false} EveryLogIsCoordinated(attempts: seq<Attempt>)
    ensures UniqueIds(LogAfter(attempts)) && Coordinated(LogAfter(attempts))
  {
    if attempts != [] {
      var n := |attempts| - 1;
      EveryLogIsCoordinated(attempts[..n]);
      LandKeepsInvariants(LogAfter(attempts[..n]), attempts[n].writer, attempts[n].entry);
    }
  }

  // ---- Boards over a shared session database ---------------------------------------

  datatype WriteResult = Written | DuplicateId

  class SessionDb {
    var rows: seq<Entry>

    constructor ()
      ensures rows == []
    {
      rows := [];
    }

    /** The id is the table's primary key: a repeated id is refused, nothing is replaced. */
    method InsertRow(row: Entry) returns (r: WriteResult)
      modifies this
      ensures r == if old(IdTaken(rows, row.id)) then DuplicateId else Written
      ensures rows == if r.Written? then old(rows) + [row] else old(rows)
    {
      var i := 0;
      while i < |rows|
        invariant 0 <= i <= |rows|
        invariant forall k :: 0 <= k < i ==> rows[k].id != row.id
      {
        if rows[i].id == row.id {
          return DuplicateId;
        }
        i := i + 1;
      }
      rows := rows + [row];
      r := Written;
    }
  }

  class Board {
    const db: SessionDb
    const runId: string

    constructor (db: SessionDb, runId: string)
      ensures this.db == db && this.runId == runId
    {
      this.db := db;
      this.runId := runId;
    }

    method Write(entry: Entry) returns (r: WriteResult)
      modifies db
      ensures r == if old(IdTaken(db.rows, entry.id)) then DuplicateId else Written
      ensures db.rows == if r.Written? then old(db.rows) + [entry.(runId := runId)] else old(db.rows)
    {
      r := db.InsertRow(entry.(runId := runId));
    }

    method DetectConflict(entry: Entry) returns (conflicts: seq<Conflict>)
      ensures conflicts == Detect(runId, entry, Query(db.rows, entry.kind))
      ensures conflicts == []
              <==> forall prior :: prior in db.rows && prior.kind == entry.kind ==> !MustReport(runId, entry, prior)
    {
      conflicts := [];
      var existing := Query(db.rows, entry.kind);
      var newWrite, newRead := ToSet(entry.writeSet), ToSet(entry.readSet);
      for i := 0 to |existing|
        invariant conflicts == Detect(runId, entry, existing[..i])
      {
        var prior := existing[i];
        assert existing[..i + 1][..i] == existing[..i];
        if prior.id == entry.id || SameWriter(runId, prior) || entry.parentId == Some(prior.id) {
          continue;
        }
        var oldWrite, oldRead := ToSet(prior.writeSet), ToSet(prior.readSet);
        var ww, rw, wr := newWrite * oldWrite, newRead * oldWrite, oldRead * newWrite;
        var broken := AssumptionViolated(entry, prior);
        if ww + rw + wr != {} || Truthy(broken) {
          conflicts := conflicts + [Conflict(entry.id, prior.id, Reasons(ww, rw, wr, broken), ww + rw + wr, broken)];
        }
      }
      assert existing[..|existing|] == existing;
      PassesIff(runId, entry, existing);
      forall prior ensures prior in existing <==> prior in db.rows && prior.kind == entry.kind {
        QueryMembers(db.rows, entry.kind, prior);
      }
    }

    /** The check and the write with nothing in between. */
    method GuardedWrite(entry: Entry) returns (landed: bool)
      modifies db
      ensures db.rows == Land(old(db.rows), runId, entry)
      ensures landed <==> db.rows != old(db.rows)
    {
      var conflicts := DetectConflict(entry);
      landed := false;
      if conflicts == [] {
        var r := Write(entry);
        landed := r.Written?;
      }
    }
  }
}
