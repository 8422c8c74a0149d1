/** Reconciling the two reports of a mutation run: the per-mutant listing and the exported counts. */
module Reconcile {
  import opened Basics

  datatype Status =
    | TypeInvalid | Survived | NoTests | TimedOut | Suspicious | Skipped | Interrupted | Segfault | NotChecked

  const STATUS_MAP: map<string, Status> :=
    map["caught by type check" := TypeInvalid, "survived" := Survived, "no tests" := NoTests, "timeout" := TimedOut,
        "suspicious" := Suspicious, "skipped" := Skipped, "check was interrupted by user" := Interrupted,
        "segfault" := Segfault, "not checked" := NotChecked]

  datatype Record = Record(name: string, status: Status)

  datatype Failure = ParseFailed | IdentityFailed

  datatype Outcome<T> = Ok(value: T) | Failed(failure: Failure)

  // ---- The listing ----------------------------------------------------------------------------------

  /** The text before and after the last ": "; None when there is none. */
  function SplitLast(line: string): Option<(string, string)> {
    if |line| < 2 then None
    else if line[|line| - 2..] == ": " then Some((line[..|line| - 2], ""))
    else
      var before := SplitLast(line[..|line| - 1]);
      if before.None? then None else Some((before.value.0, before.value.1 + [line[|line| - 1]]))
  }

  /** The record of a stripped, nonempty line. */
  function ReadLine(line: string): Option<Record> {
    var parts := SplitLast(line);
    if parts.None? || parts.value.0 == "" || parts.value.1 !in STATUS_MAP then None
    else Some(Record(parts.value.0, STATUS_MAP[parts.value.1]))
  }

  predicate NameSeen(records: seq<Record>, name: string) {
    exists r :: r in records && r.name == name
  }

  /** `lines` are the stripped lines of the output. */
  function Listing(lines: seq<string>): Outcome<seq<Record>> {
    if lines == [] then Ok([])
    else
      var before, line := Listing(lines[..|lines| - 1]), lines[|lines| - 1];
      if before.Failed? || line == "" then before
      else
        var record := ReadLine(line);
        if record.None? || NameSeen(before.value, record.value.name) then Failed(ParseFailed)
        else Ok(before.value + [record.value])
  }

  method ParseResults(lines: seq<string>) returns (r: Outcome<seq<Record>>)
    ensures r == Listing(lines)
  {
    var records: seq<Record> := [];
    var seen: set<string> := {};
    for i := 0 to |lines|
      invariant Listing(lines[..i]) == Ok(records)
      invariant forall n :: n in seen <==> NameSeen(records, n)
    {
      var line := lines[i];
      assert lines[..i + 1][..i] == lines[..i];
      if line == "" {
        continue;
      }
      var record := ReadLine(line);
      if record.None? {
        FailureStays(lines, i + 1);
        return Failed(ParseFailed);
      }
      if record.value.name in seen {
        FailureStays(lines, i + 1);
        return Failed(ParseFailed);
      }
      seen := seen + {record.value.name};
      records := records + [record.value];
    }
    assert lines[..|lines|] == lines;
    r := Ok(records);
  }

  lemma {:induction false} FailureStays(lines: seq<string>, n: nat)
    requires n <= |lines| && Listing(lines[..n]).Failed?
    ensures Listing(lines) == Listing(lines[..n])
    decreases |lines| - n
  {
    if n == |lines| {
      assert lines[..n] == lines;
    } else {
      assert lines[..n + 1][..n] == lines[..n];
      FailureStays(lines, n + 1);
    }
  }

  ghost predicate Distinct(records: seq<Record>) {
    forall i, j :: 0 <= i < j < |records| ==> records[i].name != records[j].name
  }

  function NonBlank(lines: seq<string>): seq<string> {
    if lines == [] then []
    else NonBlank(lines[..|lines| - 1]) + if lines[|lines| - 1] == "" then [] else [lines[|lines| - 1]]
  }

  /** A parsed listing has one record per nonblank line, in order, under distinct names. */
  lemma {:induction false} ListingIsFaithful(lines: seq<string>)
    requires Listing(lines).Ok?
    ensures Distinct(Listing(lines).value)
    ensures |Listing(lines).value| == |NonBlank(lines)|
    ensures forall i :: 0 <= i < |NonBlank(lines)| ==> ReadLine(NonBlank(lines)[i]) == Some(Listing(lines).value[i])
  {
    if lines != [] {
      ListingIsFaithful(lines[..|lines| - 1]);
      var before := Listing(lines[..|lines| - 1]).value;
      assert forall i :: 0 <= i < |before| ==> before[i] in before;
    }
  }

  function StatusText(s: Status): string {
    match s
    case TypeInvalid => "caught by type check"
    case Survived => "survived"
    case NoTests => "no tests"
    case TimedOut => "timeout"
    case Suspicious => "suspicious"
    case Skipped => "skipped"
    case Interrupted => "check was interrupted by user"
    case Segfault => "segfault"
    case NotChecked => "not checked"
  }

  function LineOf(r: Record): string {
    r.name + ": " + StatusText(r.status)
  }

  lemma {:induction false} SplitLastFinds(name: string, text: string)
    requires ':' !in text
    ensures SplitLast(name + ": " + text) == Some((name, text))
  {
    var line := name + ": " + text;
    if text == "" {
      assert line[|line| - 2..] == ": " && line[..|line| - 2] == name;
    } else {
      var n := |text| - 1;
      assert line[|line| - 2] == (if |text| >= 2 then text[|text| - 2] else ' ');
      assert line[|line| - 2..][0] != ':';
      assert line[..|line| - 1] == name + ": " + text[..n];
      SplitLastFinds(name, text[..n]);
      assert text == text[..n] + [text[n]];
    }
  }

  lemma StatusTextIsPlain(s: Status)
    ensures ':' !in StatusText(s) && StatusText(s) in STATUS_MAP && STATUS_MAP[StatusText(s)] == s
  {
  }

  /** Reading undoes writing, also for names that contain the separator themselves. */
  lemma LineRoundTrip(r: Record)
    requires r.name != ""
    ensures ReadLine(LineOf(r)) == Some(r) && LineOf(r) != ""
  {
    StatusTextIsPlain(r.status);
    SplitLastFinds(r.name, StatusText(r.status));
  }

  lemma {:induction false} ListingRoundTrip(records: seq<Record>)
    requires Distinct(records) && forall i :: 0 <= i < |records| ==> records[i].name != ""
    ensures Listing(Map(LineOf, records)) == Ok(records)
  {
    if records != [] {
      var n := |records| - 1;
      ListingRoundTrip(records[..n]);
      assert Map(LineOf, records)[..n] == Map(LineOf, records[..n]);
      LineRoundTrip(records[n]);
      assert !NameSeen(records[..n], records[n].name);
      assert records == records[..n] + [records[n]];
    }
  }

  // ---- The counts -----------------------------------------------------------------------------------------

  datatype Exported = Exported(total: nat, killed: nat, survived: nat, noTests: nat, skipped: nat, suspicious: nat,
                               timeout: nat, interrupted: nat, segfault: nat)

  /** `of` counts the records of each status. */
  datatype Classified = Classified(total: nat, killed: nat, of: map<Status, nat>)

  const STATUSES: set<Status> :=
    {TypeInvalid, Survived, NoTests, TimedOut, Suspicious, Skipped, Interrupted, Segfault, NotChecked}

  function Count(records: seq<Record>, s: Status): nat {
    if records == [] then 0
    else Count(records[..|records| - 1], s) + if records[|records| - 1].status == s then 1 else 0
  }

  function CountAll(records: seq<Record>): map<Status, nat> {
    map s | s in STATUSES :: Count(records, s)
  }

  function Agree(e: Exported, of: map<Status, nat>): bool
    requires of.Keys == STATUSES
  {
    && e.survived == of[Survived] && e.noTests == of[NoTests] && e.skipped == of[Skipped]
    && e.suspicious == of[Suspicious] && e.timeout == of[TimedOut] && e.interrupted == of[Interrupted]
    && e.segfault == of[Segfault]
  }

  function Sum(of: map<Status, nat>): nat
    requires of.Keys == STATUSES
  {
    of[TypeInvalid] + of[Survived] + of[NoTests] + of[TimedOut] + of[Suspicious] + of[Skipped] + of[Interrupted]
    + of[Segfault] + of[NotChecked]
  }

  method CountStatuses(records: seq<Record>) returns (of: map<Status, nat>)
    ensures of == CountAll(records)
  {
    of := map s | s in STATUSES :: 0;
    for i := 0 to |records|
      invariant of == CountAll(records[..i])
    {
      assert records[..i + 1][..i] == records[..i];
      EveryStatus(records[i].status);
      of := of[records[i].status := of[records[i].status] + 1];
    }
    assert records[..|records|] == records;
  }

  method Classify(e: Exported, records: seq<Record>) returns (r: Outcome<Classified>)
    ensures r.Ok? <==> e.total > 0 && e.total == e.killed + |records|
                       && e.survived == Count(records, Survived) && e.noTests == Count(records, NoTests)
                       && e.skipped == Count(records, Skipped) && e.suspicious == Count(records, Suspicious)
                       && e.timeout == Count(records, TimedOut) && e.interrupted == Count(records, Interrupted)
                       && e.segfault == Count(records, Segfault)
    ensures r.Ok? ==> r.value == Classified(e.total, e.killed, CountAll(records))
    ensures r.Failed? ==> r.failure == IdentityFailed
  {
    var of := CountStatuses(records);
    CountsAddUp(records);
    if !Agree(e, of) {
      return Failed(IdentityFailed);
    }
    if e.total <= 0 || e.total != e.killed + Sum(of) {
      return Failed(IdentityFailed);
    }
    r := Ok(Classified(e.total, e.killed, of));
  }

  lemma EveryStatus(s: Status)
    ensures s in STATUSES
  {
  }

  lemma {:induction false} CountsAddUp(records: seq<Record>)
    ensures Sum(CountAll(records)) == |records|
  {
    if records != [] { CountsAddUp(records[..|records| - 1]); }
  }

  // ---- Verdict and score --------------------------------------------------------------------------------------

  datatype Verdict = Clean | ActionRequired

  function VerdictOf(records: seq<Record>): Verdict {
    if exists r :: r in records && !r.status.TypeInvalid? then ActionRequired else Clean
  }

  function Score(c: Classified): Option<real>
    requires c.of.Keys == STATUSES
  {
    var denominator := c.total - c.of[TypeInvalid];
    if denominator != 0 then Some(c.killed as real / denominator as real) else None
  }

  lemma {:induction false} AllTypeInvalid(records: seq<Record>)
    ensures Count(records, TypeInvalid) <= |records|
    ensures Count(records, TypeInvalid) == |records| <==> VerdictOf(records).Clean?
  {
    if records != [] {
      var n := |records| - 1;
      AllTypeInvalid(records[..n]);
      assert records == records[..n] + [records[n]];
      if VerdictOf(records[..n]).ActionRequired? {
        var r :| r in records[..n] && !r.status.TypeInvalid?;
        assert r in records;
      }
      assert records[n] in records;
    }
  }

  lemma ProductGrows(x: real, y: real, d: real)
    requires d > 0.0
    ensures x > y ==> x * d > y * d
    ensures x == y ==> x * d == y * d
  {
    if x > y { assert (x - y) * d > 0.0; }
  }

  lemma QuotientTimes(k: real, d: real)
    requires d != 0.0
    ensures (k / d) * d == k
  {
  }

  lemma FractionBounds(killed: nat, denominator: nat)
    requires 0 < denominator && killed <= denominator
    ensures 0.0 <= killed as real / denominator as real <= 1.0
    ensures killed as real / denominator as real == 1.0 <==> killed == denominator
  {
    var d, q := denominator as real, killed as real / denominator as real;
    QuotientTimes(killed as real, d);
    ProductGrows(q, 1.0, d);
    ProductGrows(1.0, q, d);
    ProductGrows(0.0, q, d);
  }

  /** When both reports reconcile, nothing is counted twice or left out: the score is a fraction, and
      the run is clean exactly when every mutant that type-checks was killed, which is when the score
      is 1 or undefined. */
  lemma ReconciledVerdict(e: Exported, records: seq<Record>)
    requires e.total == e.killed + |records|
    ensures var c := Classified(e.total, e.killed, CountAll(records));
            && (VerdictOf(records).Clean? <==> c.killed == c.total - c.of[TypeInvalid])
            && (Score(c).Some? ==> 0.0 <= Score(c).value <= 1.0)
            && (VerdictOf(records).Clean? <==> Score(c).None? || Score(c).value == 1.0)
  {
    AllTypeInvalid(records);
    var denominator := e.total - Count(records, TypeInvalid);
    if denominator != 0 { FractionBounds(e.killed, denominator); }
  }
}
