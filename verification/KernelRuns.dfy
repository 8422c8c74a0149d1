/** The kernel as it runs over a repository: when there is a report, and what it is then worth. */
module KernelRuns {
  import opened Basics
  import opened Sorting
  import opened Kernel
  import KernelOrder

  // ---- The repository as the kernel meets it ----------------------------------------------------------

  /** What `ast.parse` makes of a source. `ParserRaises`: something other than SyntaxError. */
  datatype Parse = Parsed | BadSyntax(line: Option<int>, text: string) | ParserRaises

  /** A file is read twice; the second time it may be gone. */
  datatype Reread = Gone(error: string) | Source(digest: string, parse: Parse)

  /** `digest`: of the content when the snapshot is taken; None when the file cannot be read then. */
  datatype FileState = FileState(path: string, digest: Option<string>, reread: Reread)

  /** `Unexpected`: an exception other than ManifestError. */
  datatype ManifestState = Accepted | Rejected(problem: Diagnostic) | Unexpected

  /** `ownSources`: the kernel's and the rules' own files can be hashed. `listing`: the files in sorted
      order; None when a directory cannot be listed. */
  datatype Repo = Repo(root: string, ownSources: bool, manifest: ManifestState, listing: Option<seq<FileState>>)

  /** `encodes`: the text has a UTF-8 form; names of files need not. */
  datatype Host = Host(hash: string -> string, encodes: string -> bool)

  const IO_CODE := "FA-AUTHORING-V0-IO"
  const UNPARSABLE_CODE := "FA-AUTHORING-V0-UNPARSABLE"
  const SNAPSHOT_CODE := "FA-AUTHORING-V0-SNAPSHOT"

  predicate EndsIn(s: string, suffix: string) {
    |suffix| <= |s| && s[|s| - |suffix|..] == suffix
  }

  /** Python files outside the corpora. */
  predicate Scoped(path: string) {
    EndsIn(path, ".py") && !("catch-corpus/" <= path) && !("fp-corpus/" <= path)
  }

  function IoDiagnostic(hash: string -> string, path: string, error: string): Diagnostic {
    Diagnostic(HardBlock, IO_CODE, path, "kernel could not read file: " + error,
               "ensure the file exists and is readable", hash("io-error:" + path), None, None, None)
  }

  function SyntaxDiagnostic(path: string, digest: string, line: Option<int>, text: string): Diagnostic {
    Diagnostic(HardBlock, UNPARSABLE_CODE, path, "unparseable Python file: " + text,
               "fix the SyntaxError", digest, line, None, None)
  }

  function EmptyDiagnostic(hash: string -> string, root: string): Diagnostic {
    Diagnostic(HardBlock, SNAPSHOT_CODE, root, "empty snapshot: no files enumerated under the repository root",
               "run the kernel from a populated workspace", hash("empty-snapshot"), None, None, None)
  }

  /** What is reported of a file that the rules could not see into. */
  function BlindSpot(hash: string -> string, f: FileState): seq<Diagnostic> {
    if !Scoped(f.path) then []
    else match f.reread
      case Gone(error) => [IoDiagnostic(hash, f.path, error)]
      case Source(digest, BadSyntax(line, text)) => [SyntaxDiagnostic(f.path, digest, line, text)]
      case _ => []
  }

  function BlindSpots(hash: string -> string): FileState -> seq<Diagnostic> {
    (f: FileState) => BlindSpot(hash, f)
  }

  function FilesOf(repo: Repo): seq<FileState> {
    if repo.listing.Some? then repo.listing.value else []
  }

  function SnapshotOf(hash: string -> string, repo: Repo): Snapshot {
    Snapshot(if repo.manifest.Rejected? then Some(repo.manifest.problem) else None,
             if FilesOf(repo) == [] then Some(EmptyDiagnostic(hash, repo.root)) else None,
             FlatMap(BlindSpots(hash), FilesOf(repo)))
  }

  // ---- What lets no report come about ---------------------------------------------------------------

  /** The snapshot cannot be taken: the name does not encode, or the content cannot be read. */
  predicate Unhashable(host: Host, f: FileState) {
    !host.encodes(f.path) || f.digest.None?
  }

  predicate Unparsable(f: FileState) {
    Scoped(f.path) && f.reread.Source? && f.reread.parse.ParserRaises?
  }

  /** The handler does not see the exception, or cannot hash its text. */
  predicate Slips(host: Host, r: Rule) {
    match r.verdict
    case Returns(_) => false
    case Crashes(text) => !host.encodes(text)
    case RaisesLate => true
    case Exits => true
  }

  predicate SetupFails(repo: Repo) {
    !repo.ownSources || repo.manifest.Unexpected? || repo.listing.None?
  }

  /** Some exception goes through to the caller. */
  predicate Escapes(host: Host, repo: Repo, rules: seq<Rule>) {
    || SetupFails(repo)
    || (exists f :: f in FilesOf(repo) && (Unhashable(host, f) || Unparsable(f)))
    || (FilesOf(repo) != [] && exists r :: r in rules && Slips(host, r))
  }

  /** `snapshot`: the paths and digests that the snapshot id is made of. */
  datatype Outcome = Escaped | Reported(report: Report, snapshot: seq<(string, string)>)

  function PairOf(f: FileState): (string, string) {
    (f.path, if f.digest.Some? then f.digest.value else "")
  }

  function RunOf(host: Host, repo: Repo, rules: seq<Rule>): Outcome {
    if Escapes(host, repo, rules) then Escaped
    else Reported(ReportOf(host.hash, SnapshotOf(host.hash, repo), rules), Map(PairOf, FilesOf(repo)))
  }

  // ---- The run, step by step ----------------------------------------------------------------------------

  method HashFiles(host: Host, files: seq<FileState>) returns (r: Option<seq<(string, string)>>)
    ensures r.None? <==> exists f :: f in files && Unhashable(host, f)
    ensures r.Some? ==> r.value == Map(PairOf, files)
  {
    var pairs := [];
    for i := 0 to |files|
      invariant pairs == Map(PairOf, files[..i])
      invariant forall k :: 0 <= k < i ==> !Unhashable(host, files[k])
    {
      if !host.encodes(files[i].path) || files[i].digest.None? {
        assert Unhashable(host, files[i]);
        return None;
      }
      pairs := pairs + [(files[i].path, files[i].digest.value)];
      assert PairOf(files[i]) == (files[i].path, files[i].digest.value);
    }
    assert files[..|files|] == files;
    r := Some(pairs);
  }

  lemma BlindSpotsGrow(hash: string -> string, files: seq<FileState>, f: FileState)
    ensures FlatMap(BlindSpots(hash), files + [f]) == FlatMap(BlindSpots(hash), files) + BlindSpot(hash, f)
  {
    FlatMapAppend(BlindSpots(hash), files, [f]);
    FlatMapOne(BlindSpots(hash), f);
  }

  method LookInto(hash: string -> string, f: FileState) returns (r: Option<seq<Diagnostic>>)
    ensures r.None? <==> Unparsable(f)
    ensures r.Some? ==> r.value == BlindSpot(hash, f)
  {
    if !Scoped(f.path) {
      return Some([]);
    }
    match f.reread {
      case Gone(error) =>
        return Some([IoDiagnostic(hash, f.path, error)]);
      case Source(digest, parse) =>
        match parse {
          case Parsed =>
            return Some([]);
          case BadSyntax(line, text) =>
            return Some([SyntaxDiagnostic(f.path, digest, line, text)]);
          case ParserRaises =>
            return None;
        }
    }
  }

  /** `_parse_visibility_diagnostics`. */
  method FindBlindSpots(hash: string -> string, files: seq<FileState>) returns (r: Option<seq<Diagnostic>>)
    ensures r.None? <==> exists f :: f in files && Unparsable(f)
    ensures r.Some? ==> r.value == FlatMap(BlindSpots(hash), files)
  {
    var diagnostics := [];
    for i := 0 to |files|
      invariant diagnostics == FlatMap(BlindSpots(hash), files[..i])
      invariant forall k :: 0 <= k < i ==> !Unparsable(files[k])
    {
      var found := LookInto(hash, files[i]);
      if found.None? {
        assert files[i] in files;
        return None;
      }
      BlindSpotsGrow(hash, files[..i], files[i]);
      assert files[..i + 1] == files[..i] + [files[i]];
      diagnostics := diagnostics + found.value;
    }
    assert files[..|files|] == files;
    r := Some(diagnostics);
  }

  /** None: an exception goes through. */
  method CollectResults(host: Host, rules: seq<Rule>) returns (r: Option<seq<Diagnostic>>)
    ensures r.None? <==> exists q :: q in rules && Slips(host, q)
    ensures r.Some? ==> r.value == Collected(host.hash, rules)
  {
    var collected := [];
    for i := 0 to |rules|
      invariant collected == Collected(host.hash, rules[..i])
      invariant forall k :: 0 <= k < i ==> !Slips(host, rules[k])
    {
      CollectedGrows(host.hash, rules[..i], rules[i]);
      assert rules[..i + 1] == rules[..i] + [rules[i]];
      match rules[i].verdict {
        case Exits =>
          assert Slips(host, rules[i]);
          return None;
        case Crashes(text) =>
          if !host.encodes(text) {
            assert Slips(host, rules[i]);
            return None;
          }
          collected := collected + [CrashDiagnostic(host.hash, text)];
        case RaisesLate =>
          assert Slips(host, rules[i]);
          return None;
        case Returns(results) =>
          collected := collected + results;
      }
    }
    assert rules[..|rules|] == rules;
    r := Some(collected);
  }

  method Synthesize(collected: seq<Diagnostic>) returns (synth: seq<Diagnostic>)
    ensures synth == Advices(collected)
  {
    synth := [];
    for i := 0 to |collected|
      invariant synth == Advices(collected[..i])
    {
      AdvicesGrow(collected[..i], collected[i]);
      assert collected[..i + 1] == collected[..i] + [collected[i]];
      if Undated(collected[i]) {
        synth := synth + [Advice(collected[i])];
      }
    }
    assert collected[..|collected|] == collected;
  }

  method DispatchRules(host: Host, rules: seq<Rule>) returns (r: Option<seq<Diagnostic>>)
    ensures r.None? <==> exists q :: q in rules && Slips(host, q)
    ensures r.Some? ==> r.value == Dispatched(host.hash, rules)
  {
    r := CollectResults(host, rules);
    if r.Some? {
      var synth := Synthesize(r.value);
      r := Some(r.value + synth);
    }
  }

  /** Snapshot, blind spots and rules, for files that are there. */
  method InspectFiles(host: Host, files: seq<FileState>, rules: seq<Rule>)
    returns (r: Option<(seq<(string, string)>, seq<Diagnostic>)>)
    ensures r.None? <==> (exists f :: f in files && (Unhashable(host, f) || Unparsable(f)))
                         || (exists q :: q in rules && Slips(host, q))
    ensures r.Some? ==> r.value == (Map(PairOf, files),
                                    FlatMap(BlindSpots(host.hash), files) + Dispatched(host.hash, rules))
  {
    var pairs := HashFiles(host, files);
    if pairs.None? {
      return None;
    }
    var blind := FindBlindSpots(host.hash, files);
    if blind.None? {
      return None;
    }
    var dispatched := DispatchRules(host, rules);
    if dispatched.None? {
      return None;
    }
    r := Some((pairs.value, blind.value + dispatched.value));
  }

  lemma FindingsOf(hash: string -> string, repo: Repo, rules: seq<Rule>)
    ensures Findings(hash, SnapshotOf(hash, repo), rules)
            == (if repo.manifest.Rejected? then [repo.manifest.problem] else [])
               + if FilesOf(repo) == [] then [EmptyDiagnostic(hash, repo.root)]
                 else FlatMap(BlindSpots(hash), FilesOf(repo)) + Dispatched(hash, rules)
  {
  }

  /** What there is to inspect, or the one finding that there is nothing. */
  method Gather(host: Host, root: string, files: seq<FileState>, rules: seq<Rule>)
    returns (r: Option<(seq<(string, string)>, seq<Diagnostic>)>)
    ensures r.None? <==> (exists f :: f in files && (Unhashable(host, f) || Unparsable(f)))
                         || (files != [] && exists q :: q in rules && Slips(host, q))
    ensures r.Some? ==> r.value.0 == Map(PairOf, files)
    ensures r.Some? ==> r.value.1 == if files == [] then [EmptyDiagnostic(host.hash, root)]
                                     else FlatMap(BlindSpots(host.hash), files) + Dispatched(host.hash, rules)
  {
    if files == [] {
      return Some(([], [EmptyDiagnostic(host.hash, root)]));
    }
    r := InspectFiles(host, files, rules);
  }

  /** There is no report if and only if the kernel's own files, the manifest or a directory raise, a file
      cannot be hashed under its name, the parser raises something other than SyntaxError, or a
      dispatched rule slips past the handler. */
  method RunAll(host: Host, repo: Repo, rules: seq<Rule>) returns (outcome: Outcome)
    ensures outcome == RunOf(host, repo, rules)
  {
    if !repo.ownSources || repo.manifest.Unexpected? || repo.listing.None? {
      return Escaped;
    }
    var problems := if repo.manifest.Rejected? then [repo.manifest.problem] else [];
    var gathered := Gather(host, repo.root, repo.listing.value, rules);
    if gathered.None? {
      return Escaped;
    }
    FindingsOf(host.hash, repo, rules);
    outcome := Reported(Report(Signature(rules), |rules|, Sort(ByKey(), problems + gathered.value.1)), gathered.value.0);
  }

  // ---- What a report is worth -------------------------------------------------------------------------

  /** A report is in key order and holds exactly what was found: the kernel's own findings, what every
      rule returned or the one diagnostic for its crash, and one dated advisory per undated one. */
  lemma ReportIsComplete(host: Host, repo: Repo, rules: seq<Rule>)
    requires RunOf(host, repo, rules).Reported?
    ensures var ds := RunOf(host, repo, rules).report.diagnostics;
            && Sorted(ByKey(), ds)
            && multiset(ds) == multiset(Findings(host.hash, SnapshotOf(host.hash, repo), rules))
            && (FilesOf(repo) != [] ==>
                  |ds| == (if repo.manifest.Rejected? then 1 else 0) + |FlatMap(BlindSpots(host.hash), FilesOf(repo))|
                          + |Collected(host.hash, rules)| + UndatedCount(Collected(host.hash, rules)))
  {
    FindingsAreSorted(host.hash, SnapshotOf(host.hash, repo), rules);
  }

  /** A crashing rule fails closed: if there is a report at all, it names the crash and the run fails,
      whatever the other rules returned. */
  lemma CrashFailsClosed(host: Host, repo: Repo, rules: seq<Rule>, i: nat)
    requires RunOf(host, repo, rules).Reported? && FilesOf(repo) != []
    requires i < |rules| && rules[i].verdict.Crashes?
    ensures var report := RunOf(host, repo, rules).report;
            CrashDiagnostic(host.hash, rules[i].verdict.text) in report.diagnostics && ExitCode(report) == 1
  {
    var snap := SnapshotOf(host.hash, repo);
    CrashIsFound(host.hash, snap, rules, i);
    FoundIsReported(host.hash, snap, rules, CrashDiagnostic(host.hash, rules[i].verdict.text));
  }

  lemma {:induction false} BlindSpotIsListed(hash: string -> string, files: seq<FileState>, f: FileState, d: Diagnostic)
    requires f in files && d in BlindSpot(hash, f)
    ensures d in FlatMap(BlindSpots(hash), files)
  {
    if f != files[0] { BlindSpotIsListed(hash, files[1..], f, d); }
  }

  /** So does every file that the rules could not see into. */
  lemma BlindSpotFailsClosed(host: Host, repo: Repo, rules: seq<Rule>, f: FileState)
    requires RunOf(host, repo, rules).Reported? && f in FilesOf(repo) && Scoped(f.path)
    requires f.reread.Gone? || !f.reread.parse.Parsed?
    ensures var report := RunOf(host, repo, rules).report;
            ExitCode(report) == 1 && exists d :: d in report.diagnostics && d.path == f.path && d.severity.HardBlock?
  {
    var snap := SnapshotOf(host.hash, repo);
    assert !Unparsable(f);
    var d := BlindSpot(host.hash, f)[0];
    BlindSpotIsListed(host.hash, FilesOf(repo), f, d);
    assert d in Findings(host.hash, snap, rules);
    FoundIsReported(host.hash, snap, rules, d);
  }

  /** A file of which a report says that it could not be read was readable a moment before. */
  lemma IoMeansRace(host: Host, repo: Repo, rules: seq<Rule>, f: FileState)
    requires RunOf(host, repo, rules).Reported? && f in FilesOf(repo)
    ensures f.digest.Some? && (f.path, f.digest.value) in RunOf(host, repo, rules).snapshot
  {
    assert !Unhashable(host, f);
    var i :| 0 <= i < |FilesOf(repo)| && FilesOf(repo)[i] == f;
    assert Map(PairOf, FilesOf(repo))[i] == PairOf(f);
  }

  /** Whether there is a report does not depend on the order of the rules; and what the report is does not
      if and only if there is none, nothing is dispatched, or the rules commute under every key. */
  lemma RunOrderIff(host: Host, repo: Repo, s: seq<Rule>)
    ensures (forall t :: multiset(t) == multiset(s) ==> RunOf(host, repo, t) == RunOf(host, repo, s))
            <==> RunOf(host, repo, s).Escaped? || FilesOf(repo) == [] || KernelOrder.RulesCommute(host.hash, s)
    ensures forall t :: multiset(t) == multiset(s) ==>
              (RunOf(host, repo, t).Escaped? <==> RunOf(host, repo, s).Escaped?)
  {
    var snap := SnapshotOf(host.hash, repo);
    forall t | multiset(t) == multiset(s)
      ensures RunOf(host, repo, t).Escaped? <==> RunOf(host, repo, s).Escaped?
    {
      SameMultiset(s, t);
    }
    KernelOrder.OrderIsInvisibleIff(host.hash, snap, s);
    if RunOf(host, repo, s).Reported? {
      ReportedOrder(host, repo, s);
    }
  }

  lemma ReportedOrder(host: Host, repo: Repo, s: seq<Rule>)
    requires RunOf(host, repo, s).Reported?
    requires forall t :: multiset(t) == multiset(s) ==>
               (RunOf(host, repo, t).Escaped? <==> RunOf(host, repo, s).Escaped?)
    ensures (forall t :: multiset(t) == multiset(s) ==> RunOf(host, repo, t) == RunOf(host, repo, s))
            <==> KernelOrder.OrderIsInvisible(host.hash, SnapshotOf(host.hash, repo), s)
  {
    var snap := SnapshotOf(host.hash, repo);
    forall t | multiset(t) == multiset(s)
      ensures RunOf(host, repo, t) == RunOf(host, repo, s)
              <==> ReportOf(host.hash, snap, t) == ReportOf(host.hash, snap, s)
    {
    }
    if forall t :: multiset(t) == multiset(s) ==> RunOf(host, repo, t) == RunOf(host, repo, s) {
      forall t | multiset(t) == multiset(s) ensures ReportOf(host.hash, snap, t) == ReportOf(host.hash, snap, s) {
        assert RunOf(host, repo, t) == RunOf(host, repo, s);
      }
    }
  }

  // ---- Instances ----------------------------------------------------------------------------------------

  function Clean(path: string): FileState {
    FileState(path, Some("digest"), Source("digest", Parsed))
  }

  /** One file that cannot be read leaves no report, though it is no Python file and no rule runs. */
  lemma UnreadableFileEscapes(host: Host)
    ensures RunOf(host, Repo("/", true, Accepted, Some([Clean("a.py"), FileState("notes", None, Gone("denied"))])), [])
            == Escaped
  {
    var files := [Clean("a.py"), FileState("notes", None, Gone("denied"))];
    assert files[1] in files && Unhashable(host, files[1]);
  }

  /** A rule that raises late leaves none either, even beside a crash that would have failed the run. */
  lemma LateRuleEscapes(host: Host)
    ensures RunOf(host, Repo("/", true, Accepted, Some([Clean("a.py")])),
                  [Rule("m.Crash", Crashes("boom")), Rule("m.Late", RaisesLate)]) == Escaped
  {
    var rules := [Rule("m.Crash", Crashes("boom")), Rule("m.Late", RaisesLate)];
    assert rules[1] in rules && Slips(host, rules[1]);
  }
}
