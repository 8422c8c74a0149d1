/** The artifact index: versioned rows per knowledge file, kept on top of the blackboard by
    any number of indexing passes. */
module ArtifactIndex {
  import opened Basics
  import opened Sorting
  import opened Blackboards

  const ARTIFACT_TYPES: set<string> :=
    {"skill", "adr", "research", "instruction", "prompt", "codemap", "antipattern"}
  const MAX_FILE_BYTES := 200_000

  /** What looking at a candidate file gives. */
  datatype Probe =
    | Escapes
    | StatFails
    | Stat(size: nat, fileHash: Option<string>)  // None: the bytes could not be read

  /** `encodes`: the path has a UTF-8 form; file names need not have one. */
  datatype Candidate = Candidate(entryType: string, relpath: string, probe: Probe, encodes: bool)

  /** Handling the file raises: its logical id is computed outside the handler. */
  predicate FileRaises(c: Candidate) {
    && c.entryType in ARTIFACT_TYPES && c.probe.Stat? && c.probe.size <= MAX_FILE_BYTES && c.probe.fileHash.Some?
    && !c.encodes
  }

  /** How many files are handled before one raises. */
  function Reached(files: seq<Candidate>): (n: nat)
    ensures n <= |files|
  {
    if files == [] || FileRaises(files[0]) then 0 else 1 + Reached(files[1..])
  }

  lemma {:induction false} ReachedIs(files: seq<Candidate>, n: nat)
    requires n <= |files| && (forall k :: 0 <= k < n ==> !FileRaises(files[k])) && (n < |files| ==> FileRaises(files[n]))
    ensures Reached(files) == n
  {
    if n > 0 { ReachedIs(files[1..], n - 1); }
  }

  /** What the outside contributes to one write: a fresh uuid suffix, the clock, the content
      hash of the payload, and whether the database refuses for a reason of its own. */
  datatype Supply = Supply(nonce: string, now: int, contentHash: string, dbFails: bool)

  datatype Problem =
    | BadRoot | UnexpectedType | Escape | Unstatable | TooLarge | Unreadable | WriteFailed

  datatype Stats = Stats(scanned: nat, added: nat, updated: nat, skipped: nat,
                         errors: seq<(Problem, string)>, types: set<string>)

  const NO_STATS := Stats(0, 0, 0, 0, [], {})

  datatype State = State(rows: seq<Entry>, latest: map<string, Entry>, stats: Stats)

  /** `digest` stands for the truncated SHA-256; nothing is assumed about it here. */
  type Digest = string -> string

  function LogicalId(digest: Digest, entryType: string, relpath: string): string {
    entryType + ":" + digest(relpath)
  }

  function Lid(e: Entry): string {
    if e.payload.logicalId.Some? then e.payload.logicalId.value else e.id
  }

  // ---- The latest revision of every logical id -------------------------------------

  function Note(out: map<string, Entry>, e: Entry): map<string, Entry> {
    if Lid(e) !in out || e.timestamp >= out[Lid(e)].timestamp then out[Lid(e) := e] else out
  }

  function Scan(out: map<string, Entry>, es: seq<Entry>): map<string, Entry> {
    if es == [] then out else Note(Scan(out, es[..|es| - 1]), es[|es| - 1])
  }

  function LatestFrom(out: map<string, Entry>, rows: seq<Entry>, types: seq<string>): map<string, Entry>
    decreases |types|
  {
    if types == [] then out else LatestFrom(Scan(out, Query(rows, types[0])), rows, types[1..])
  }

  /** `types` lists the wanted kinds in whatever order Python iterates over the set. */
  function Latest(rows: seq<Entry>, types: seq<string>): map<string, Entry> {
    LatestFrom(map[], rows, types)
  }

  // ---- One file --------------------------------------------------------------------

  datatype Outcome = Added | Updated | Skipped | Failed(problem: Problem)

  function NewEntry(digest: Digest, c: Candidate, fileHash: string, prev: Option<Entry>, sup: Supply): Entry {
    var logical := LogicalId(digest, c.entryType, c.relpath);
    Entry(if prev.None? then logical else logical + "-r" + sup.nonce,
          c.entryType, sup.contentHash,
          if prev.None? then None else Some(prev.value.id),
          [], [c.relpath], [], map[], sup.now,
          Payload(Some(logical), Some(fileHash)), "")
  }

  function Get(m: map<string, Entry>, k: string): Option<Entry> {
    if k in m then Some(m[k]) else None
  }

  function Count(s: Stats, c: Candidate, o: Outcome): Stats {
    var s := s.(scanned := s.scanned + 1, types := s.types + {c.entryType});
    match o
    case Added => s.(added := s.added + 1)
    case Updated => s.(updated := s.updated + 1)
    case Skipped => s.(skipped := s.skipped + 1)
    case Failed(p) => s.(errors := s.errors + [(p, c.relpath)])
  }

  /** One file that does not raise. */
  function IndexOne(digest: Digest, writer: string, st: State, c: Candidate, sup: Supply): State {
    if c.entryType !in ARTIFACT_TYPES then st.(stats := Count(st.stats, c, Failed(UnexpectedType)))
    else if c.probe.Escapes? then st.(stats := Count(st.stats, c, Failed(Escape)))
    else if c.probe.StatFails? then st.(stats := Count(st.stats, c, Failed(Unstatable)))
    else if c.probe.size > MAX_FILE_BYTES then st.(stats := Count(st.stats, c, Failed(TooLarge)))
    else if c.probe.fileHash.None? then st.(stats := Count(st.stats, c, Failed(Unreadable)))
    else
      var fileHash := c.probe.fileHash.value;
      var logical := LogicalId(digest, c.entryType, c.relpath);
      var prev := Get(st.latest, logical);
      if prev.Some? && prev.value.payload.fileHash == Some(fileHash)
      then st.(stats := Count(st.stats, c, Skipped))
      else
        var entry := NewEntry(digest, c, fileHash, prev, sup);
        if sup.dbFails then st.(stats := Count(st.stats, c, Failed(WriteFailed)))
        else if IdTaken(st.rows, entry.id) then st.(stats := Count(st.stats, c, Skipped))
        else State(st.rows + [entry.(runId := writer)], st.latest[logical := entry],
                   Count(st.stats, c, if prev.None? then Added else Updated))
  }

  function Pass(digest: Digest, writer: string, st: State, files: seq<Candidate>, sups: seq<Supply>): State
    requires |files| == |sups|
    decreases |files|
  {
    if files == [] then st
    else Pass(digest, writer, IndexOne(digest, writer, st, files[0], sups[0]), files[1..], sups[1..])
  }

  // ---- The indexer as it runs ---------------------------------------------------------

  class Indexer {
    const board: Board
    var latest: map<string, Entry>
    var stats: Stats

    ghost function Now(): State
      reads this, board.db
    {
      State(board.db.rows, latest, stats)
    }

    constructor (board: Board, latest: map<string, Entry>)
      ensures this.board == board && Now() == State(board.db.rows, latest, NO_STATS)
    {
      this.board := board;
      this.latest := latest;
      stats := NO_STATS;
    }

    /** False: an exception goes through, and nothing was written. */
    method IndexOneFile(digest: Digest, c: Candidate, sup: Supply) returns (ok: bool)
      modifies this, board.db
      ensures ok <==> !FileRaises(c)
      ensures ok ==> Now() == IndexOne(digest, board.runId, old(Now()), c, sup)
      ensures !ok ==> board.db.rows == old(board.db.rows) && latest == old(latest)
    {
      ok := true;
      stats := stats.(scanned := stats.scanned + 1, types := stats.types + {c.entryType});
      if c.entryType !in ARTIFACT_TYPES {
        stats := stats.(errors := stats.errors + [(UnexpectedType, c.relpath)]);
        return;
      }
      if c.probe.Escapes? {
        stats := stats.(errors := stats.errors + [(Escape, c.relpath)]);
        return;
      }
      if c.probe.StatFails? {
        stats := stats.(errors := stats.errors + [(Unstatable, c.relpath)]);
        return;
      }
      if c.probe.size > MAX_FILE_BYTES {
        stats := stats.(errors := stats.errors + [(TooLarge, c.relpath)]);
        return;
      }
      if c.probe.fileHash.None? {
        stats := stats.(errors := stats.errors + [(Unreadable, c.relpath)]);
        return;
      }
      var fileHash := c.probe.fileHash.value;
      if !c.encodes {
        return false;
      }
      var logical := LogicalId(digest, c.entryType, c.relpath);
      var prev := Get(latest, logical);
      if prev.Some? && prev.value.payload.fileHash == Some(fileHash) {
        stats := stats.(skipped := stats.skipped + 1);
        return;
      }
      var entry := NewEntry(digest, c, fileHash, prev, sup);
      if sup.dbFails {
        stats := stats.(errors := stats.errors + [(WriteFailed, c.relpath)]);
        return;
      }
      var r := board.Write(entry);
      if r.DuplicateId? {
        stats := stats.(skipped := stats.skipped + 1);
        return;
      }
      if prev.None? {
        stats := stats.(added := stats.added + 1);
      } else {
        stats := stats.(updated := stats.updated + 1);
      }
      latest := latest[logical := entry];
    }
  }

  /** The inner loop of `_latest_by_logical_id`, over the rows of one type. */
  method ScanRows(start: map<string, Entry>, es: seq<Entry>) returns (out: map<string, Entry>)
    ensures out == Scan(start, es)
  {
    out := start;
    for i := 0 to |es|
      invariant out == Scan(start, es[..i])
    {
      var e := es[i];
      assert es[..i + 1][..i] == es[..i];
      var lid := Lid(e);
      if lid !in out || e.timestamp >= out[lid].timestamp {
        out := out[lid := e];
      }
    }
    assert es[..|es|] == es;
  }

  method LatestByLogicalId(board: Board, types: seq<string>) returns (out: map<string, Entry>)
    ensures out == Latest(board.db.rows, types)
  {
    out := map[];
    for t := 0 to |types|
      invariant LatestFrom(out, board.db.rows, types[t..]) == Latest(board.db.rows, types)
    {
      out := ScanRows(out, Query(board.db.rows, types[t]));
      assert types[t..][1..] == types[t + 1..];
    }
  }

  /** What resolving the knowledge directory gives. */
  datatype Root = Unresolvable | NotADirectory | Directory

  function TargetTypes(requested: Option<set<string>>): set<string> {
    (if requested.Some? then requested.value else ARTIFACT_TYPES) * ARTIFACT_TYPES
  }

  lemma {:induction false} PassSnoc(digest: Digest, writer: string, st: State, files: seq<Candidate>, sups: seq<Supply>)
    requires |files| == |sups| && files != []
    ensures var n := |files| - 1;
            Pass(digest, writer, st, files, sups)
            == IndexOne(digest, writer, Pass(digest, writer, st, files[..n], sups[..n]), files[n], sups[n])
    decreases |files|
  {
    var n := |files| - 1;
    if n > 0 {
      PassSnoc(digest, writer, IndexOne(digest, writer, st, files[0], sups[0]), files[1..], sups[1..]);
      assert files[1..][..n - 1] == files[..n][1..] && sups[1..][..n - 1] == sups[..n][1..];
    }
  }

  /** The loop over the files, from what the queries gave. None: an exception goes through. */
  method IndexFiles(board: Board, digest: Digest, latest: map<string, Entry>, files: seq<Candidate>, sups: seq<Supply>)
    returns (stats: Option<Stats>)
    requires |files| == |sups|
    modifies board.db
    ensures stats.None? <==> Reached(files) < |files|
    ensures var n := Reached(files);
            var done := Pass(digest, board.runId, State(old(board.db.rows), latest, NO_STATS), files[..n], sups[..n]);
            board.db.rows == done.rows && (stats.Some? ==> stats.value == done.stats)
  {
    var indexer := new Indexer(board, latest);
    ghost var start := indexer.Now();
    for i := 0 to |files|
      invariant indexer.board == board && fresh(indexer)
      invariant forall k :: 0 <= k < i ==> !FileRaises(files[k])
      invariant indexer.Now() == Pass(digest, board.runId, start, files[..i], sups[..i])
    {
      var ok := indexer.IndexOneFile(digest, files[i], sups[i]);
      if !ok {
        ReachedIs(files, i);
        return None;
      }
      PassSnoc(digest, board.runId, start, files[..i + 1], sups[..i + 1]);
      assert files[..i + 1][..i] == files[..i] && sups[..i + 1][..i] == sups[..i];
    }
    ReachedIs(files, |files|);
    stats := Some(indexer.stats);
  }

  /** `types` lists the target types in iteration order, `files` is what the directory walk yields;
      `queryFails`: the database refuses a query. None: an exception goes through. */
  method EnsureArtifactsIndexed(board: Board, digest: Digest, root: Root, requested: Option<set<string>>,
                                types: seq<string>, queryFails: bool, files: seq<Candidate>, sups: seq<Supply>)
    returns (stats: Option<Stats>)
    requires |files| == |sups|
    requires forall t :: t in types <==> t in TargetTypes(requested)
    modifies board.db
    ensures stats.None? <==> root.Directory? && types != [] && (queryFails || Reached(files) < |files|)
    ensures root.Directory? && types != [] && !queryFails ==>
              var n := Reached(files);
              var done := Pass(digest, board.runId, State(old(board.db.rows), Latest(old(board.db.rows), types), NO_STATS),
                               files[..n], sups[..n]);
              board.db.rows == done.rows && (stats.Some? ==> stats.value == done.stats)
    ensures !(root.Directory? && types != [] && !queryFails) ==> board.db.rows == old(board.db.rows)
    ensures stats.Some? ==>
              stats.value.scanned + (if root.Unresolvable? then 1 else 0)
              == stats.value.added + stats.value.updated + stats.value.skipped + |stats.value.errors|
  {
    if root.Unresolvable? {
      return Some(NO_STATS.(errors := [(BadRoot, "")]));
    }
    if root.NotADirectory? || types == [] {
      return Some(NO_STATS);
    }
    if queryFails {
      return None;
    }
    var latest := LatestByLogicalId(board, types);
    ghost var start, n := State(board.db.rows, latest, NO_STATS), Reached(files);
    EveryFileHasOneOutcome(digest, board.runId, start, files[..n], sups[..n]);
    stats := IndexFiles(board, digest, latest, files, sups);
  }

  ghost predicate Balanced(s: Stats) {
    s.scanned == s.added + s.updated + s.skipped + |s.errors|
  }

  lemma IndexOneCountsOnce(digest: Digest, writer: string, st: State, c: Candidate, sup: Supply)
    requires Balanced(st.stats)
    ensures Balanced(IndexOne(digest, writer, st, c, sup).stats)
    ensures IndexOne(digest, writer, st, c, sup).stats.scanned == st.stats.scanned + 1
  {
  }

  /** Every scanned file is counted under exactly one outcome. */
  lemma {:induction false} EveryFileHasOneOutcome(digest: Digest, writer: string, st: State,
                                                  files: seq<Candidate>, sups: seq<Supply>)
    requires |files| == |sups| && Balanced(st.stats)
    ensures Balanced(Pass(digest, writer, st, files, sups).stats)
    ensures Pass(digest, writer, st, files, sups).stats.scanned == st.stats.scanned + |files|
    decreases |files|
  {
    if files != [] {
      IndexOneCountsOnce(digest, writer, st, files[0], sups[0]);
      EveryFileHasOneOutcome(digest, writer, IndexOne(digest, writer, st, files[0], sups[0]), files[1..], sups[1..]);
    }
  }

  // ---- Histories under any interleaving of passes -----------------------------------------

  /** The logical id of an artifact row starts with the row's kind. */
  ghost predicate Typed(e: Entry) {
    && e.payload.logicalId.Some?
    && |e.kind| < |Lid(e)| && Lid(e)[..|e.kind| + 1] == e.kind + ":"
  }

  ghost predicate ParentAt(rows: seq<Entry>, k: int, j: int)
    requires 0 <= j < k < |rows|
  {
    && rows[j].kind in ARTIFACT_TYPES
    && rows[k].parentId == Some(rows[j].id)
    && Lid(rows[j]) == Lid(rows[k])
  }

  /** Row `k` is the first revision of its logical id, or names an earlier revision of it. */
  ghost predicate Rooted(rows: seq<Entry>, k: int)
    requires 0 <= k < |rows|
  {
    && Typed(rows[k])
    && (rows[k].parentId.None? ==> rows[k].id == Lid(rows[k]))
    && (rows[k].parentId.Some? ==> exists j :: 0 <= j < k && ParentAt(rows, k, j))
  }

  ghost predicate AllRooted(rows: seq<Entry>) {
    forall k :: 0 <= k < |rows| && rows[k].kind in ARTIFACT_TYPES ==> Rooted(rows, k)
  }

  ghost predicate RecordedAs(rows: seq<Entry>, l: string, e: Entry) {
    exists j :: 0 <= j < |rows| && rows[j].kind in ARTIFACT_TYPES && Lid(rows[j]) == l && rows[j].id == e.id
  }

  /** What a pass remembers as latest is always some row of that logical id. */
  ghost predicate Remembered(rows: seq<Entry>, latest: map<string, Entry>) {
    forall l :: l in latest ==> RecordedAs(rows, l, latest[l])
  }

  lemma RowsGrowKeeps(rows: seq<Entry>, row: Entry, latest: map<string, Entry>)
    requires AllRooted(rows) && Remembered(rows, latest)
    ensures Remembered(rows + [row], latest)
    ensures forall k :: 0 <= k < |rows| && rows[k].kind in ARTIFACT_TYPES ==> Rooted(rows + [row], k)
  {
    var more := rows + [row];
    forall l | l in latest ensures RecordedAs(more, l, latest[l]) {
      assert RecordedAs(rows, l, latest[l]);
      var j :| 0 <= j < |rows| && rows[j].kind in ARTIFACT_TYPES && Lid(rows[j]) == l && rows[j].id == latest[l].id;
      assert more[j] == rows[j];
    }
    forall k | 0 <= k < |rows| && rows[k].kind in ARTIFACT_TYPES ensures Rooted(more, k) {
      assert Rooted(rows, k) && more[k] == rows[k];
      if rows[k].parentId.Some? {
        var j :| 0 <= j < k && ParentAt(rows, k, j);
        assert ParentAt(more, k, j);
      }
    }
  }

  /** `row` continues the history of `l` as `latest` knows it. */
  ghost predicate Continues(latest: map<string, Entry>, l: string, row: Entry) {
    && row.kind in ARTIFACT_TYPES && Typed(row) && Lid(row) == l
    && (if l in latest then row.parentId == Some(latest[l].id)
        else row.parentId == None && row.id == l)
  }

  /** `row`, stamped from `entry`, was appended under a fresh id and remembered. */
  ghost predicate Extends(st: State, st': State, l: string, row: Entry, entry: Entry, writer: string) {
    && st'.rows == st.rows + [row] && st'.latest == st.latest[l := entry]
    && row == entry.(runId := writer)
    && !IdTaken(st.rows, row.id) && Continues(st.latest, l, row)
  }

  /** Handling a file leaves rows and memory alone, or appends one row that continues the file's
      history with what was read, and remembers it. */
  lemma IndexOneShape(digest: Digest, writer: string, st: State, c: Candidate, sup: Supply)
    ensures var st' := IndexOne(digest, writer, st, c, sup);
            var l := LogicalId(digest, c.entryType, c.relpath);
            || (st'.rows == st.rows && st'.latest == st.latest)
            || (exists row, entry :: Extends(st, st', l, row, entry, writer))
    ensures var st' := IndexOne(digest, writer, st, c, sup);
            st'.rows != st.rows ==>
              && |st'.rows| == |st.rows| + 1
              && var row := st'.rows[|st.rows|];
              && c.probe.Stat? && row.payload.fileHash == c.probe.fileHash
              && row.kind == c.entryType && row.timestamp == sup.now
  {
    var st' := IndexOne(digest, writer, st, c, sup);
    var l := LogicalId(digest, c.entryType, c.relpath);
    if st'.rows != st.rows || st'.latest != st.latest {
      var entry := NewEntry(digest, c, c.probe.fileHash.value, Get(st.latest, l), sup);
      var row := entry.(runId := writer);
      assert Lid(row) == l && l[..|c.entryType| + 1] == c.entryType + ":";
      assert Extends(st, st', l, row, entry, writer);
    }
  }

  lemma AppendIsRooted(rows: seq<Entry>, latest: map<string, Entry>, l: string, row: Entry)
    requires Remembered(rows, latest) && Continues(latest, l, row)
    ensures Rooted(rows + [row], |rows|)
  {
    var n, more := |rows|, rows + [row];
    assert more[n] == row;
    if l in latest {
      assert RecordedAs(rows, l, latest[l]);
      var j :| 0 <= j < n && rows[j].kind in ARTIFACT_TYPES && Lid(rows[j]) == l && rows[j].id == latest[l].id;
      assert more[j] == rows[j];
      assert ParentAt(more, n, j);
    }
  }

  lemma AppendIsRemembered(rows: seq<Entry>, latest: map<string, Entry>, l: string, row: Entry, entry: Entry)
    requires Remembered(rows, latest) && Remembered(rows + [row], latest)
    requires Continues(latest, l, row) && entry.id == row.id
    ensures Remembered(rows + [row], latest[l := entry])
  {
    var more := rows + [row];
    assert more[|rows|] == row;
    assert RecordedAs(more, l, entry);
    var latest' := latest[l := entry];
    forall k | k in latest' ensures RecordedAs(more, k, latest'[k]) {
      if k != l { assert k in latest && RecordedAs(more, k, latest[k]); }
    }
  }

  lemma AppendKeepsHistory(rows: seq<Entry>, latest: map<string, Entry>, l: string, row: Entry, entry: Entry)
    requires UniqueIds(rows) && AllRooted(rows) && Remembered(rows, latest)
    requires !IdTaken(rows, row.id) && Continues(latest, l, row) && entry.id == row.id
    ensures UniqueIds(rows + [row]) && AllRooted(rows + [row]) && Remembered(rows + [row], latest[l := entry])
  {
    RowsGrowKeeps(rows, row, latest);
    AppendIsRooted(rows, latest, l, row);
    AppendIsRemembered(rows, latest, l, row, entry);
    AppendIsUnique(rows, row);
    AllRootedGrows(rows, row);
  }

  lemma AppendIsUnique(rows: seq<Entry>, row: Entry)
    requires UniqueIds(rows) && !IdTaken(rows, row.id)
    ensures UniqueIds(rows + [row])
  {
    forall i, j | 0 <= i < j < |rows + [row]| ensures (rows + [row])[i].id != (rows + [row])[j].id {
      if j == |rows| { assert rows[i] in rows; }
    }
  }

  lemma AllRootedGrows(rows: seq<Entry>, row: Entry)
    requires forall k :: 0 <= k < |rows| && rows[k].kind in ARTIFACT_TYPES ==> Rooted(rows + [row], k)
    requires Rooted(rows + [row], |rows|)
    ensures AllRooted(rows + [row])
  {
    var more := rows + [row];
    forall k | 0 <= k < |more| && more[k].kind in ARTIFACT_TYPES ensures Rooted(more, k) {
      if k < |rows| { assert more[k] == rows[k]; }
    }
  }

  lemma IndexOneKeepsHistory(digest: Digest, writer: string, st: State, c: Candidate, sup: Supply)
    requires UniqueIds(st.rows) && AllRooted(st.rows) && Remembered(st.rows, st.latest)
    ensures var st' := IndexOne(digest, writer, st, c, sup);
            && UniqueIds(st'.rows) && AllRooted(st'.rows) && Remembered(st'.rows, st'.latest)
            && st.rows <= st'.rows && |st'.rows| <= |st.rows| + 1
  {
    var st' := IndexOne(digest, writer, st, c, sup);
    var l := LogicalId(digest, c.entryType, c.relpath);
    IndexOneShape(digest, writer, st, c, sup);
    if !(st'.rows == st.rows && st'.latest == st.latest) {
      var row, entry: Entry :| Extends(st, st', l, row, entry, writer);
      AppendKeepsHistory(st.rows, st.latest, l, row, entry);
    }
  }

  lemma {:induction false} ScanRecords(rows: seq<Entry>, out: map<string, Entry>, es: seq<Entry>)
    requires Remembered(rows, out)
    requires forall e :: e in es ==> e in rows && e.kind in ARTIFACT_TYPES
    ensures Remembered(rows, Scan(out, es))
  {
    if es != [] {
      var n := |es| - 1;
      ScanRecords(rows, out, es[..n]);
      assert es[n] in rows;
      assert RecordedAs(rows, Lid(es[n]), es[n]);
    }
  }

  lemma {:induction false} LatestRecords(rows: seq<Entry>, out: map<string, Entry>, types: seq<string>)
    requires Remembered(rows, out) && forall t :: t in types ==> t in ARTIFACT_TYPES
    ensures Remembered(rows, LatestFrom(out, rows, types))
    decreases |types|
  {
    if types != [] {
      forall e | e in Query(rows, types[0]) ensures e in rows && e.kind in ARTIFACT_TYPES {
        QueryMembers(rows, types[0], e);
      }
      ScanRecords(rows, out, Query(rows, types[0]));
      LatestRecords(rows, Scan(out, Query(rows, types[0])), types[1..]);
    }
  }

  /** Passes take turns in any way: each one queries the rows type by type, one query at a time, then
      handles files one at a time from what it remembers; other parts of the program add rows of
      other kinds. A pass may be in the middle of its queries while others write. */
  datatype Event =
    | Begin(pass: nat)
    | QueryType(pass: nat, kind: string)
    | File(pass: nat, writer: string, candidate: Candidate, supply: Supply)
    | Foreign(row: Entry)

  datatype System = System(rows: seq<Entry>, passes: map<nat, map<string, Entry>>)

  function Step(digest: Digest, sys: System, ev: Event): System {
    match ev
    case Begin(pass) => sys.(passes := sys.passes[pass := map[]])
    case QueryType(pass, kind) =>
      if pass !in sys.passes || kind !in ARTIFACT_TYPES then sys
      else sys.(passes := sys.passes[pass := Scan(sys.passes[pass], Query(sys.rows, kind))])
    case File(pass, writer, c, sup) =>
      if pass !in sys.passes then sys
      else if FileRaises(c) then sys.(passes := sys.passes - {pass})  // and the pass is over
      else
        var st := IndexOne(digest, writer, State(sys.rows, sys.passes[pass], NO_STATS), c, sup);
        System(st.rows, sys.passes[pass := st.latest])
    case Foreign(row) =>
      if row.kind in ARTIFACT_TYPES || IdTaken(sys.rows, row.id) then sys
      else sys.(rows := sys.rows + [row])
  }

  function Run(digest: Digest, events: seq<Event>): System {
    if events == [] then System([], map[])
    else Step(digest, Run(digest, events[..|events| - 1]), events[|events| - 1])
  }

  ghost predicate Sound(sys: System) {
    && UniqueIds(sys.rows) && AllRooted(sys.rows)
    && forall p :: p in sys.passes ==> Remembered(sys.rows, sys.passes[p])
  }

  lemma StepIsSound(digest: Digest, sys: System, ev: Event)
    requires Sound(sys)
    ensures Sound(Step(digest, sys, ev))
  {
    match ev
    case Begin(pass) =>
    case QueryType(pass, kind) =>
      if pass in sys.passes && kind in ARTIFACT_TYPES {
        forall e | e in Query(sys.rows, kind) ensures e in sys.rows && e.kind in ARTIFACT_TYPES {
          QueryMembers(sys.rows, kind, e);
        }
        ScanRecords(sys.rows, sys.passes[pass], Query(sys.rows, kind));
      }
    case File(pass, writer, c, sup) =>
      if pass in sys.passes && !FileRaises(c) {
        var st := State(sys.rows, sys.passes[pass], NO_STATS);
        var st' := IndexOne(digest, writer, st, c, sup);
        IndexOneKeepsHistory(digest, writer, st, c, sup);
        forall p | p in sys.passes ensures Remembered(st'.rows, sys.passes[p]) {
          if st'.rows != st.rows {
            assert st'.rows == st.rows + [st'.rows[|st.rows|]];
            RowsGrowKeeps(sys.rows, st'.rows[|st.rows|], sys.passes[p]);
          }
        }
      }
    case Foreign(row) =>
      forall p | p in sys.passes ensures Remembered(sys.rows + [row], sys.passes[p]) {
        RowsGrowKeeps(sys.rows, row, sys.passes[p]);
      }
      RowsGrowKeeps(sys.rows, row, map[]);
  }

  /** Whatever the interleaving, ids stay unique and every artifact row is a first revision or
      names an earlier row of the same logical id. */
  lemma {:induction false} EveryRunIsSound(digest: Digest, events: seq<Event>)
    ensures Sound(Run(digest, events))
  {
    if events != [] {
      EveryRunIsSound(digest, events[..|events| - 1]);
      StepIsSound(digest, Run(digest, events[..|events| - 1]), events[|events| - 1]);
    }
  }

  /** Following parent links from row `k`; every link goes to an earlier row, so this ends. */
  ghost function Origin(rows: seq<Entry>, k: int): (j: int)
    requires UniqueIds(rows) && AllRooted(rows)
    requires 0 <= k < |rows| && rows[k].kind in ARTIFACT_TYPES
    ensures 0 <= j <= k && rows[j].kind in ARTIFACT_TYPES
    ensures rows[j].parentId.None? && rows[j].id == Lid(rows[k]) && Lid(rows[j]) == Lid(rows[k])
    decreases k
  {
    if rows[k].parentId.None? then k
    else
      assert Rooted(rows, k);
      var j :| 0 <= j < k && ParentAt(rows, k, j);
      Origin(rows, j)
  }

  /** All revisions of a logical id descend from one parentless row, in every run. */
  lemma HistoriesAreTrees(digest: Digest, events: seq<Event>, a: int, b: int)
    requires var rows := Run(digest, events).rows;
             && 0 <= a < |rows| && 0 <= b < |rows|
             && rows[a].kind in ARTIFACT_TYPES && rows[b].kind in ARTIFACT_TYPES
             && Lid(rows[a]) == Lid(rows[b])
    ensures var rows := Run(digest, events).rows;
            && UniqueIds(rows) && AllRooted(rows)
            && Origin(rows, a) == Origin(rows, b)
            && (rows[a].parentId.None? && rows[b].parentId.None? ==> a == b)
  {
    EveryRunIsSound(digest, events);
    var rows := Run(digest, events).rows;
    var i, j := Origin(rows, a), Origin(rows, b);
    assert rows[i].id == rows[j].id;
    if rows[a].parentId.None? && rows[b].parentId.None? {
      assert Rooted(rows, a) && Rooted(rows, b);
    }
  }
}
