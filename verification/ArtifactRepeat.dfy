/** Indexing again over unchanged files writes nothing. */
module ArtifactRepeat {
  import opened Basics
  import opened Sorting
  import opened Blackboards
  import opened ArtifactIndex

  // ---- Rows with a late timestamp become the latest revision ------------------------------

  ghost predicate NotAfter(rows: seq<Entry>, now: int) {
    forall i :: 0 <= i < |rows| ==> rows[i].timestamp <= now
  }

  lemma QueryAppend(rows: seq<Entry>, row: Entry, kind: string)
    requires NotAfter(rows, row.timestamp)
    ensures Query(rows + [row], kind) == if row.kind == kind then Query(rows, kind) + [row] else Query(rows, kind)
  {
    var ofKind := (e: Entry) => e.kind == kind;
    FilterAppend(ofKind, rows, [row]);
    assert Filter(ofKind, [row]) == if row.kind == kind then [row] else [];
    if row.kind == kind {
      ByTimeIsPreorder();
      forall e | e in OfKind(rows, kind) ensures ByTime()(e, row) { FilterMember(ofKind, rows, e); }
      SortAppendLargest(ByTime(), OfKind(rows, kind), row);
    } else {
      assert OfKind(rows + [row], kind) == OfKind(rows, kind);
    }
  }

  lemma {:induction false} ScanBounds(out: map<string, Entry>, es: seq<Entry>, now: int)
    requires forall l :: l in out ==> out[l].timestamp <= now
    requires forall e :: e in es ==> e.timestamp <= now
    ensures forall l :: l in Scan(out, es) ==> Scan(out, es)[l].timestamp <= now
  {
    if es != [] {
      var n := |es| - 1;
      ScanBounds(out, es[..n], now);
      assert es[n] in es;
    }
  }

  lemma {:induction false} ScanIgnores(out: map<string, Entry>, es: seq<Entry>, l: string, row: Entry)
    requires forall e :: e in es ==> Lid(e) != l
    ensures Scan(out[l := row], es) == Scan(out, es)[l := row]
  {
    if es != [] {
      var n := |es| - 1;
      ScanIgnores(out, es[..n], l, row);
      assert es[n] in es;
    }
  }

  lemma KindHasNoColon(kind: string)
    requires kind in ARTIFACT_TYPES
    ensures ':' !in kind
  {
  }

  lemma ColonInPrefix(l: string, m: nat, n: nat)
    requires m < |l| && n < |l| && l[m] == ':'
    ensures m < n ==> ':' in l[..n]
  {
    if m < n { assert l[..n][m] == ':'; }
  }

  /** A text splits at its first colon in one way only. */
  lemma FirstColonSplits(l: string, a: string, b: string)
    requires ':' !in a && ':' !in b
    requires |a| < |l| && l[..|a| + 1] == a + ":"
    requires |b| < |l| && l[..|b| + 1] == b + ":"
    ensures a == b
  {
    assert l[|a|] == l[..|a| + 1][|a|] == ':' && l[|b|] == l[..|b| + 1][|b|] == ':';
    assert l[..|a|] == l[..|a| + 1][..|a|] == a;
    assert l[..|b|] == l[..|b| + 1][..|b|] == b;
    ColonInPrefix(l, |a|, |b|);
    ColonInPrefix(l, |b|, |a|);
  }

  /** Kinds are determined by logical ids, because no kind contains a colon. */
  lemma KindOfLid(a: Entry, b: Entry)
    requires Typed(a) && Typed(b) && a.kind in ARTIFACT_TYPES && b.kind in ARTIFACT_TYPES
    requires Lid(a) == Lid(b)
    ensures a.kind == b.kind
  {
    KindHasNoColon(a.kind);
    KindHasNoColon(b.kind);
    FirstColonSplits(Lid(a), a.kind, b.kind);
  }

  lemma ScanAppendLatest(out: map<string, Entry>, es: seq<Entry>, row: Entry)
    requires forall l :: l in out ==> out[l].timestamp <= row.timestamp
    requires forall e :: e in es ==> e.timestamp <= row.timestamp
    ensures Scan(out, es + [row]) == Scan(out, es)[Lid(row) := row]
  {
    ScanBounds(out, es, row.timestamp);
    assert (es + [row])[..|es|] == es;
  }

  lemma {:induction false} LatestIgnores(out: map<string, Entry>, rows: seq<Entry>, row: Entry, types: seq<string>)
    requires NotAfter(rows, row.timestamp) && row.kind !in types
    requires forall e :: e in rows && e.kind in types ==> Lid(e) != Lid(row)
    ensures LatestFrom(out[Lid(row) := row], rows + [row], types) == LatestFrom(out, rows, types)[Lid(row) := row]
    decreases |types|
  {
    if types != [] {
      QueryAppend(rows, row, types[0]);
      var es := Query(rows, types[0]);
      forall e | e in es ensures Lid(e) != Lid(row) { QueryMembers(rows, types[0], e); }
      ScanIgnores(out, es, Lid(row), row);
      LatestIgnores(Scan(out, es), rows, row, types[1..]);
    }
  }

  lemma {:induction false} LatestOfAppend(out: map<string, Entry>, rows: seq<Entry>, row: Entry, types: seq<string>)
    requires NotAfter(rows, row.timestamp) && row.kind in types && NoDuplicates(types)
    requires forall e :: e in rows && e.kind in types && Lid(e) == Lid(row) ==> e.kind == row.kind
    requires forall l :: l in out ==> out[l].timestamp <= row.timestamp
    ensures LatestFrom(out, rows + [row], types) == LatestFrom(out, rows, types)[Lid(row) := row]
    decreases |types|
  {
    var es := Query(rows, types[0]);
    QueryAppend(rows, row, types[0]);
    forall e | e in es ensures e.timestamp <= row.timestamp { QueryMembers(rows, types[0], e); }
    ScanBounds(out, es, row.timestamp);
    if row.kind == types[0] {
      ScanAppendLatest(out, es, row);
      assert row.kind !in types[1..];
      forall e | e in rows && e.kind in types[1..] ensures Lid(e) != Lid(row) {
        assert e.kind in types;
      }
      LatestIgnores(Scan(out, es), rows, row, types[1..]);
    } else {
      assert row.kind in types[1..];
      LatestOfAppend(Scan(out, es), rows, row, types[1..]);
    }
  }

  // ---- What a pass remembers is what a new scan would find ---------------------------------

  ghost predicate SamePayloads(a: map<string, Entry>, b: map<string, Entry>) {
    a.Keys == b.Keys && forall l :: l in a ==> a[l].payload == b[l].payload
  }

  /** A pass in progress whose memory agrees with the rows. */
  ghost predicate UpToDate(st: State, types: seq<string>) {
    && UniqueIds(st.rows) && AllRooted(st.rows) && Remembered(st.rows, st.latest)
    && SamePayloads(st.latest, Latest(st.rows, types))
  }

  lemma SameLidSameKind(rows: seq<Entry>, types: seq<string>, row: Entry)
    requires AllRooted(rows) && Typed(row) && row.kind in ARTIFACT_TYPES
    requires forall t :: t in types ==> t in ARTIFACT_TYPES
    ensures forall e :: e in rows && e.kind in types && Lid(e) == Lid(row) ==> e.kind == row.kind
  {
    forall e | e in rows && e.kind in types && Lid(e) == Lid(row) ensures e.kind == row.kind {
      var k :| 0 <= k < |rows| && rows[k] == e;
      assert Rooted(rows, k);
      KindOfLid(e, row);
    }
  }

  lemma SamePayloadsUpdated(a: map<string, Entry>, b: map<string, Entry>, l: string, x: Entry, y: Entry)
    requires SamePayloads(a, b) && x.payload == y.payload
    ensures SamePayloads(a[l := x], b[l := y])
  {
  }

  lemma AppendStaysUpToDate(st: State, st': State, types: seq<string>, l: string, row: Entry, entry: Entry,
                            writer: string)
    requires AllRooted(st.rows) && SamePayloads(st.latest, Latest(st.rows, types))
    requires Extends(st, st', l, row, entry, writer) && NotAfter(st.rows, row.timestamp)
    requires NoDuplicates(types) && row.kind in types && forall t :: t in types ==> t in ARTIFACT_TYPES
    ensures SamePayloads(st'.latest, Latest(st'.rows, types))
  {
    SameLidSameKind(st.rows, types, row);
    LatestOfAppend(map[], st.rows, row, types);
    SamePayloadsUpdated(st.latest, Latest(st.rows, types), l, entry, row);
  }

  /** The state after a file, told by what it keeps: nothing new, or one row of one of the types. */
  lemma UpToDateAfter(st: State, st': State, types: seq<string>, l: string, writer: string, now: int)
    requires UpToDate(st, types) && NotAfter(st.rows, now)
    requires UniqueIds(st'.rows) && AllRooted(st'.rows) && Remembered(st'.rows, st'.latest)
    requires || (st'.rows == st.rows && st'.latest == st.latest)
             || (exists row, entry :: Extends(st, st', l, row, entry, writer))
    requires st'.rows != st.rows ==>
               |st'.rows| == |st.rows| + 1 && st'.rows[|st.rows|].kind in types && st'.rows[|st.rows|].timestamp == now
    requires NoDuplicates(types) && forall t :: t in types ==> t in ARTIFACT_TYPES
    ensures UpToDate(st', types) && NotAfter(st'.rows, now)
  {
    if st'.rows != st.rows {
      var row, entry: Entry :| Extends(st, st', l, row, entry, writer);
      assert row == st'.rows[|st.rows|];
      AppendStaysUpToDate(st, st', types, l, row, entry, writer);
    }
  }

  lemma StaysUpToDate(digest: Digest, writer: string, st: State, c: Candidate, sup: Supply, types: seq<string>)
    requires UpToDate(st, types) && NotAfter(st.rows, sup.now)
    requires NoDuplicates(types) && c.entryType in types && forall t :: t in types ==> t in ARTIFACT_TYPES
    ensures UpToDate(IndexOne(digest, writer, st, c, sup), types)
    ensures NotAfter(IndexOne(digest, writer, st, c, sup).rows, sup.now)
  {
    var st' := IndexOne(digest, writer, st, c, sup);
    IndexOneKeepsHistory(digest, writer, st, c, sup);
    IndexOneShape(digest, writer, st, c, sup);
    UpToDateAfter(st, st', types, LogicalId(digest, c.entryType, c.relpath), writer, sup.now);
  }

  // ---- Files that need no further work ---------------------------------------------------------

  /** The index already holds the file, or can never hold it. */
  ghost predicate Settled(digest: Digest, rows: seq<Entry>, latest: map<string, Entry>, c: Candidate) {
    var l := LogicalId(digest, c.entryType, c.relpath);
    || c.entryType !in ARTIFACT_TYPES
    || !c.probe.Stat? || c.probe.size > MAX_FILE_BYTES || c.probe.fileHash.None?
    || (l in latest && latest[l].payload.fileHash == c.probe.fileHash)
    || (l !in latest && IdTaken(rows, l))
  }

  ghost predicate AllSettled(digest: Digest, st: State, files: seq<Candidate>) {
    forall i :: 0 <= i < |files| ==> Settled(digest, st.rows, st.latest, files[i])
  }

  lemma {:induction false} SettledWritesNothing(digest: Digest, writer: string, st: State,
                                                files: seq<Candidate>, sups: seq<Supply>)
    requires |files| == |sups| && AllSettled(digest, st, files)
    ensures Pass(digest, writer, st, files, sups).rows == st.rows
    ensures Pass(digest, writer, st, files, sups).stats.added == st.stats.added
    ensures Pass(digest, writer, st, files, sups).stats.updated == st.stats.updated
    decreases |files|
  {
    if files != [] {
      SettledWritesNothing(digest, writer, IndexOne(digest, writer, st, files[0], sups[0]), files[1..], sups[1..]);
    }
  }

  /** The write of this file, if one is due, is not lost: the database accepts it, and the fresh
      suffix of a revision is really fresh. */
  ghost predicate NotLost(digest: Digest, st: State, c: Candidate, sup: Supply) {
    var l := LogicalId(digest, c.entryType, c.relpath);
    !sup.dbFails && (l in st.latest ==> !IdTaken(st.rows, l + "-r" + sup.nonce))
  }

  ghost predicate NoneLost(digest: Digest, writer: string, st: State, files: seq<Candidate>, sups: seq<Supply>)
    requires |files| == |sups|
    decreases |files|
  {
    files != [] ==>
      && NotLost(digest, st, files[0], sups[0])
      && NoneLost(digest, writer, IndexOne(digest, writer, st, files[0], sups[0]), files[1..], sups[1..])
  }

  /** The clock never runs backwards, from the rows on. */
  ghost predicate ClockRuns(rows: seq<Entry>, sups: seq<Supply>) {
    && (forall i :: 0 <= i < |sups| ==> NotAfter(rows, sups[i].now))
    && (forall i, j :: 0 <= i < j < |sups| ==> sups[i].now <= sups[j].now)
  }

  ghost predicate DistinctFiles(digest: Digest, files: seq<Candidate>) {
    forall i, j :: 0 <= i < j < |files| ==>
      LogicalId(digest, files[i].entryType, files[i].relpath) != LogicalId(digest, files[j].entryType, files[j].relpath)
  }

  lemma FileIsSettledAfter(digest: Digest, writer: string, st: State, c: Candidate, sup: Supply)
    requires NotLost(digest, st, c, sup)
    ensures var st' := IndexOne(digest, writer, st, c, sup);
            Settled(digest, st'.rows, st'.latest, c)
  {
  }

  lemma OthersStaySettled(digest: Digest, writer: string, st: State, c: Candidate, sup: Supply, d: Candidate)
    requires Settled(digest, st.rows, st.latest, d)
    requires LogicalId(digest, c.entryType, c.relpath) != LogicalId(digest, d.entryType, d.relpath)
    ensures var st' := IndexOne(digest, writer, st, c, sup);
            Settled(digest, st'.rows, st'.latest, d)
  {
    var st' := IndexOne(digest, writer, st, c, sup);
    IndexOneShape(digest, writer, st, c, sup);
    var l := LogicalId(digest, d.entryType, d.relpath);
    if IdTaken(st.rows, l) {
      var e :| e in st.rows && e.id == l;
      assert e in st'.rows;
    }
  }

  lemma OneMoreSettled(digest: Digest, writer: string, st: State, done: seq<Candidate>, c: Candidate, sup: Supply)
    requires AllSettled(digest, st, done) && NotLost(digest, st, c, sup)
    requires DistinctFiles(digest, done + [c])
    ensures AllSettled(digest, IndexOne(digest, writer, st, c, sup), done + [c])
  {
    var st', more := IndexOne(digest, writer, st, c, sup), done + [c];
    FileIsSettledAfter(digest, writer, st, c, sup);
    forall i | 0 <= i < |more| ensures Settled(digest, st'.rows, st'.latest, more[i]) {
      if i < |done| {
        assert more[i] == done[i] && more[|done|] == c;
        OthersStaySettled(digest, writer, st, c, sup, done[i]);
      }
    }
  }

  /** The types a pass works on, each once, and files of these types only. */
  ghost predicate Scope(types: seq<string>, files: seq<Candidate>) {
    && NoDuplicates(types) && (forall t :: t in types ==> t in ARTIFACT_TYPES)
    && forall i :: 0 <= i < |files| ==> files[i].entryType in types
  }

  /** A pass under way: `done` is settled, `files` are still to come. */
  ghost predicate UnderWay(digest: Digest, types: seq<string>, st: State, done: seq<Candidate>,
                           files: seq<Candidate>, sups: seq<Supply>) {
    && |files| == |sups| && UpToDate(st, types) && ClockRuns(st.rows, sups) && Scope(types, files)
    && DistinctFiles(digest, done + files) && AllSettled(digest, st, done)
  }

  lemma ClockGoesOn(rows: seq<Entry>, sups: seq<Supply>)
    requires sups != [] && NotAfter(rows, sups[0].now)
    requires forall i, j :: 0 <= i < j < |sups| ==> sups[i].now <= sups[j].now
    ensures ClockRuns(rows, sups[1..])
  {
  }

  lemma DistinctPrefix(digest: Digest, done: seq<Candidate>, files: seq<Candidate>)
    requires files != [] && DistinctFiles(digest, done + files)
    ensures DistinctFiles(digest, done + [files[0]])
    ensures (done + [files[0]]) + files[1..] == done + files
  {
    assert forall i :: 0 <= i < |done + [files[0]]| ==> (done + [files[0]])[i] == (done + files)[i];
  }

  /** The pass goes on from `st'` with the remaining files. */
  lemma NextFile(digest: Digest, writer: string, types: seq<string>, st: State, done: seq<Candidate>,
                 files: seq<Candidate>, sups: seq<Supply>) returns (st': State)
    requires UnderWay(digest, types, st, done, files, sups) && files != []
    requires NoneLost(digest, writer, st, files, sups)
    ensures UnderWay(digest, types, st', done + [files[0]], files[1..], sups[1..])
    ensures NoneLost(digest, writer, st', files[1..], sups[1..])
    ensures Pass(digest, writer, st, files, sups) == Pass(digest, writer, st', files[1..], sups[1..])
    ensures (done + [files[0]]) + files[1..] == done + files
  {
    var c, sup := files[0], sups[0];
    st' := IndexOne(digest, writer, st, c, sup);
    StaysUpToDate(digest, writer, st, c, sup, types);
    ClockGoesOn(st'.rows, sups);
    DistinctPrefix(digest, done, files);
    OneMoreSettled(digest, writer, st, done, c, sup);
  }

  lemma {:induction false} PassSettlesAll(digest: Digest, writer: string, types: seq<string>, st: State,
                                          done: seq<Candidate>, files: seq<Candidate>, sups: seq<Supply>)
    requires UnderWay(digest, types, st, done, files, sups) && NoneLost(digest, writer, st, files, sups)
    ensures var end := Pass(digest, writer, st, files, sups);
            UpToDate(end, types) && AllSettled(digest, end, done + files)
    decreases |files|
  {
    if files == [] {
      assert done + files == done;
    } else {
      var st' := NextFile(digest, writer, types, st, done, files, sups);
      PassSettlesAll(digest, writer, types, st', done + [files[0]], files[1..], sups[1..]);
    }
  }

  /** A second pass over the same files finds nothing to write: for every log the indexers can
      leave, a first pass whose writes are not lost is followed by one that adds and updates
      nothing, whatever its clock, suffixes and database do. */
  lemma RepeatWritesNothing(digest: Digest, writer: string, rows: seq<Entry>, types: seq<string>,
                            files: seq<Candidate>, sups: seq<Supply>, again: seq<Supply>)
    requires UniqueIds(rows) && AllRooted(rows) && |files| == |sups| == |again|
    requires Scope(types, files) && DistinctFiles(digest, files) && ClockRuns(rows, sups)
    requires NoneLost(digest, writer, State(rows, Latest(rows, types), NO_STATS), files, sups)
    ensures var first := Pass(digest, writer, State(rows, Latest(rows, types), NO_STATS), files, sups);
            var second := Pass(digest, writer, State(first.rows, Latest(first.rows, types), NO_STATS), files, again);
            second.rows == first.rows && second.stats.added == 0 && second.stats.updated == 0
  {
    var start := State(rows, Latest(rows, types), NO_STATS);
    LatestRecords(rows, map[], types);
    assert [] + files == files;
    PassSettlesAll(digest, writer, types, start, [], files, sups);
    var first := Pass(digest, writer, start, files, sups);
    ScanAgreesSettled(digest, first, types, files);
    SettledWritesNothing(digest, writer, State(first.rows, Latest(first.rows, types), NO_STATS), files, again);
  }

  /** What is settled for the memory of a pass is settled for a new scan. */
  lemma ScanAgreesSettled(digest: Digest, st: State, types: seq<string>, files: seq<Candidate>)
    requires UpToDate(st, types) && AllSettled(digest, st, files)
    ensures AllSettled(digest, State(st.rows, Latest(st.rows, types), NO_STATS), files)
  {
    forall i | 0 <= i < |files| ensures Settled(digest, st.rows, Latest(st.rows, types), files[i]) {
      assert Settled(digest, st.rows, st.latest, files[i]);
    }
  }
}
