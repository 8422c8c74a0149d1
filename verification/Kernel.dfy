/** The authoring kernel: rules are dispatched from a fixed list, whatever they do, and what they
    report is put into one order. */
module Kernel {
  import opened Basics
  import opened Sorting
  import opened Encoding
  import Walk

  datatype Severity = HardBlock | Advisory | Info

  datatype Diagnostic = Diagnostic(
    severity: Severity, code: string, path: string, message: string, remediation: string, inputHash: string,
    line: Option<int>, column: Option<int>, expiresOn: Option<string>)

  /** What calling a rule on the snapshot gives; rules are deterministic. `Crashes`: an Exception with this
      text. `RaisesLate`: the call returns something that raises only when its elements are asked for.
      `Exits`: SystemExit and the like, which are no Exceptions. */
  datatype Verdict = Returns(results: seq<Diagnostic>) | Crashes(text: string) | RaisesLate | Exits

  /** `className` is the module and qualified name of the rule's class. */
  datatype Rule = Rule(className: string, verdict: Verdict)

  datatype Report = Report(signature: string, dispatchedCount: nat, diagnostics: seq<Diagnostic>)

  // ---- The order of diagnostics ------------------------------------------------------------------

  datatype Key = Key(rank: int, code: string, path: string, line: int, message: string)

  function RankOf(s: Severity): int {
    match s case HardBlock => 0 case Advisory => 1 case Info => 2
  }

  function SortKey(d: Diagnostic): Key {
    Key(RankOf(d.severity), d.code, d.path, if d.line.Some? then d.line.value else -1, d.message)
  }

  /** Tuples compare by their first difference. */
  predicate KeyLe(a: Key, b: Key) {
    if a.rank != b.rank then a.rank < b.rank
    else if a.code != b.code then LexLe(a.code, b.code)
    else if a.path != b.path then LexLe(a.path, b.path)
    else if a.line != b.line then a.line < b.line
    else LexLe(a.message, b.message)
  }

  function ByKey(): (Diagnostic, Diagnostic) -> bool {
    Keyed(KeyLe, SortKey)
  }

  lemma KeyLeTotal(a: Key, b: Key)
    ensures KeyLe(a, b) || KeyLe(b, a)
  {
    LexTotal(a.code, b.code);
    LexTotal(a.path, b.path);
    LexTotal(a.message, b.message);
  }

  lemma KeyLeAntisymmetric(a: Key, b: Key)
    requires KeyLe(a, b) && KeyLe(b, a)
    ensures a == b
  {
    if a.code != b.code && LexLe(a.code, b.code) && LexLe(b.code, a.code) { LexAntisymmetric(a.code, b.code); }
    if a.path != b.path && LexLe(a.path, b.path) && LexLe(b.path, a.path) { LexAntisymmetric(a.path, b.path); }
    if LexLe(a.message, b.message) && LexLe(b.message, a.message) { LexAntisymmetric(a.message, b.message); }
  }

  lemma LexChain(a: string, b: string, c: string)
    ensures LexLe(a, b) && LexLe(b, c) ==> LexLe(a, c)
    ensures LexLe(a, b) && LexLe(b, a) ==> a == b
  {
    if LexLe(a, b) && LexLe(b, c) { LexTransitive(a, b, c); }
    if LexLe(a, b) && LexLe(b, a) { LexAntisymmetric(a, b); }
  }

  lemma KeyLeTransitive(a: Key, b: Key, c: Key)
    requires KeyLe(a, b) && KeyLe(b, c)
    ensures KeyLe(a, c)
  {
    LexChain(a.code, b.code, c.code);
    LexChain(a.path, b.path, c.path);
    LexChain(a.message, b.message, c.message);
  }

  lemma ByKeyIsPreorder()
    ensures Preorder(KeyLe) && Preorder(ByKey())
  {
    forall x, y ensures KeyLe(x, y) || KeyLe(y, x) { KeyLeTotal(x, y); }
    forall x, y, z | KeyLe(x, y) && KeyLe(y, z) ensures KeyLe(x, z) { KeyLeTransitive(x, y, z); }
    KeyedIsPreorder(KeyLe, SortKey);
  }

  // ---- Dispatch -------------------------------------------------------------------------------------

  const CRASH_CODE := "FA-AUTHORING-V0-RULE-CRASH"
  const UNDATED_CODE := "FA-AUTHORING-V0-ADVISORY-UNDATED"

  function CrashDiagnostic(hash: string -> string, text: string): Diagnostic {
    Diagnostic(HardBlock, CRASH_CODE, "<kernel>", text,
               "fix or remove the offending Level-1 rule from the allowlist", hash(text), None, None, None)
  }

  predicate Undated(d: Diagnostic) {
    d.severity.Advisory? && d.expiresOn.None?
  }

  /** The advisory about an undated advisory; it is dated itself. */
  function Advice(d: Diagnostic): Diagnostic {
    Diagnostic(Advisory, UNDATED_CODE, d.path, "advisory '" + d.code + "' omitted required expires_on date",
               "set expires_on, or promote or demote the rule", d.inputHash, d.line, None, Some("9999-12-31"))
  }

  function Output(hash: string -> string, r: Rule): seq<Diagnostic> {
    match r.verdict
    case Crashes(text) => [CrashDiagnostic(hash, text)]
    case Returns(results) => results
    case _ => []  // such a run has no report
  }

  function Outputs(hash: string -> string): Rule -> seq<Diagnostic> {
    (r: Rule) => Output(hash, r)
  }

  /** What the rules report, in the order of the rules. */
  function Collected(hash: string -> string, rules: seq<Rule>): seq<Diagnostic> {
    FlatMap(Outputs(hash), rules)
  }

  function AdviceOn(d: Diagnostic): seq<Diagnostic> {
    if Undated(d) then [Advice(d)] else []
  }

  function Advices(ds: seq<Diagnostic>): seq<Diagnostic> {
    FlatMap(AdviceOn, ds)
  }

  function Dispatched(hash: string -> string, rules: seq<Rule>): seq<Diagnostic> {
    Collected(hash, rules) + Advices(Collected(hash, rules))
  }

  lemma CollectedGrows(hash: string -> string, rules: seq<Rule>, r: Rule)
    ensures Collected(hash, rules + [r]) == Collected(hash, rules) + Output(hash, r)
  {
    FlatMapAppend(Outputs(hash), rules, [r]);
    FlatMapOne(Outputs(hash), r);
  }

  lemma AdvicesGrow(ds: seq<Diagnostic>, d: Diagnostic)
    ensures Advices(ds + [d]) == Advices(ds) + AdviceOn(d)
  {
    FlatMapAppend(AdviceOn, ds, [d]);
    FlatMapOne(AdviceOn, d);
  }

  function ClassNames(rules: seq<Rule>): seq<string> {
    Map((r: Rule) => r.className, rules)
  }

  /** What the signature hashes. */
  function Signature(rules: seq<Rule>): string {
    Joined(Sort(LexLe, ClassNames(rules)))
  }

  /** What the kernel itself has found before any rule runs. */
  datatype Snapshot = Snapshot(manifestProblem: Option<Diagnostic>, empty: Option<Diagnostic>,
                               blindSpots: seq<Diagnostic>)

  /** Everything reported, before it is put in order. An empty snapshot dispatches nothing. */
  function Findings(hash: string -> string, snap: Snapshot, rules: seq<Rule>): seq<Diagnostic> {
    (if snap.manifestProblem.Some? then [snap.manifestProblem.value] else [])
    + if snap.empty.Some? then [snap.empty.value] else snap.blindSpots + Dispatched(hash, rules)
  }

  function ReportOf(hash: string -> string, snap: Snapshot, rules: seq<Rule>): Report {
    Report(Signature(rules), |rules|, Sort(ByKey(), Findings(hash, snap, rules)))
  }

  predicate Blocks(ds: seq<Diagnostic>) {
    exists d :: d in ds && d.severity.HardBlock?
  }

  function ExitCode(r: Report): int {
    if Blocks(r.diagnostics) then 1 else 0
  }

  // ---- Nothing is lost, nothing is invented ------------------------------------------------------------

  ghost function UndatedCount(ds: seq<Diagnostic>): nat {
    |Filter(Undated, ds)|
  }

  lemma {:induction false} AdvicesAnswer(ds: seq<Diagnostic>)
    ensures |Advices(ds)| == UndatedCount(ds)
    ensures forall a :: a in Advices(ds) ==> a.severity.Advisory? && !Undated(a) && a.code == UNDATED_CODE
    ensures forall d :: d in ds && Undated(d) ==> exists a :: a in Advices(ds) && a.path == d.path && a.line == d.line
  {
    if ds != [] {
      AdvicesAnswer(ds[1..]);
      assert ds == [ds[0]] + ds[1..];
      assert Undated(ds[0]) ==> Advice(ds[0]) in Advices(ds);
    }
  }

  lemma FindingsAreSorted(hash: string -> string, snap: Snapshot, rules: seq<Rule>)
    ensures var ds := ReportOf(hash, snap, rules).diagnostics;
            && Sorted(ByKey(), ds)
            && multiset(ds) == multiset(Findings(hash, snap, rules))
            && (snap.empty.None? ==>
                  |ds| == (if snap.manifestProblem.Some? then 1 else 0) + |snap.blindSpots|
                          + |Collected(hash, rules)| + UndatedCount(Collected(hash, rules)))
  {
    ByKeyIsPreorder();
    SortSorted(ByKey(), Findings(hash, snap, rules));
    SortPermutes(ByKey(), Findings(hash, snap, rules));
    AdvicesAnswer(Collected(hash, rules));
  }

  /** Reading order: blocking findings first, then advisories, then notes; within these by code, by
      path and by line, findings without a line before the others. */
  ghost predicate ReadsBefore(d: Diagnostic, e: Diagnostic) {
    && (e.severity.HardBlock? ==> d.severity.HardBlock?)
    && (d.severity.Info? ==> e.severity.Info?)
    && (d.severity == e.severity ==> LexLe(d.code, e.code))
    && (d.severity == e.severity && d.code == e.code ==> LexLe(d.path, e.path))
    && (d.severity == e.severity && d.code == e.code && d.path == e.path && d.line.Some? && d.line.value >= 0 ==>
          e.line.Some? && d.line.value <= e.line.value)
  }

  lemma KeyOrderReads(d: Diagnostic, e: Diagnostic)
    requires KeyLe(SortKey(d), SortKey(e))
    ensures ReadsBefore(d, e)
  {
    LexTotal(d.code, d.code);
    LexTotal(d.path, d.path);
  }

  lemma ReportReadsInOrder(hash: string -> string, snap: Snapshot, rules: seq<Rule>, i: int, j: int)
    requires 0 <= i < j < |ReportOf(hash, snap, rules).diagnostics|
    ensures ReadsBefore(ReportOf(hash, snap, rules).diagnostics[i], ReportOf(hash, snap, rules).diagnostics[j])
  {
    var ds := ReportOf(hash, snap, rules).diagnostics;
    FindingsAreSorted(hash, snap, rules);
    assert ByKey()(ds[i], ds[j]);
    KeyOrderReads(ds[i], ds[j]);
  }

  /** The exit code is 1 exactly when something that was found blocks. */
  lemma ExitCodeIff(hash: string -> string, snap: Snapshot, rules: seq<Rule>)
    ensures ExitCode(ReportOf(hash, snap, rules)) == 1 <==> Blocks(Findings(hash, snap, rules))
  {
    SortPermutes(ByKey(), Findings(hash, snap, rules));
    forall d ensures d in ReportOf(hash, snap, rules).diagnostics <==> d in Findings(hash, snap, rules) {
    }
  }

  lemma CollectedHas(hash: string -> string, rules: seq<Rule>, i: nat, d: Diagnostic)
    requires i < |rules| && d in Output(hash, rules[i])
    ensures d in Collected(hash, rules)
  {
    assert rules == (rules[..i] + [rules[i]]) + rules[i + 1..];
    CollectedGrows(hash, rules[..i], rules[i]);
    FlatMapAppend(Outputs(hash), rules[..i] + [rules[i]], rules[i + 1..]);
  }

  lemma CrashIsFound(hash: string -> string, snap: Snapshot, rules: seq<Rule>, i: nat)
    requires snap.empty.None? && i < |rules| && rules[i].verdict.Crashes?
    ensures CrashDiagnostic(hash, rules[i].verdict.text) in Findings(hash, snap, rules)
  {
    var d := CrashDiagnostic(hash, rules[i].verdict.text);
    CollectedHas(hash, rules, i, d);
    assert d in Dispatched(hash, rules);
  }

  /** What was found is reported, and if it blocks, the run fails. */
  lemma FoundIsReported(hash: string -> string, snap: Snapshot, rules: seq<Rule>, d: Diagnostic)
    requires d in Findings(hash, snap, rules)
    ensures d in ReportOf(hash, snap, rules).diagnostics
    ensures d.severity.HardBlock? ==> ExitCode(ReportOf(hash, snap, rules)) == 1
  {
    SortPermutes(ByKey(), Findings(hash, snap, rules));
    ExitCodeIff(hash, snap, rules);
  }

  // ---- The order of the rules ------------------------------------------------------------------------------

  lemma FindingsPermute(hash: string -> string, snap: Snapshot, s: seq<Rule>, t: seq<Rule>)
    requires multiset(s) == multiset(t)
    ensures multiset(Findings(hash, snap, s)) == multiset(Findings(hash, snap, t))
  {
    FlatMapPermutes(Outputs(hash), s, t);
    FlatMapPermutes(AdviceOn, Collected(hash, s), Collected(hash, t));
  }

  lemma KeysSeparateKeys(s: seq<Key>)
    ensures KeysSeparate(KeyLe, s)
  {
    forall x, y | x in s && y in s && KeyLe(x, y) && KeyLe(y, x) ensures x == y { KeyLeAntisymmetric(x, y); }
  }

  /** Putting the rules in another order changes neither the signature, nor the exit code, nor the
      sequence of keys, nor what is reported; and if no two different findings share a key, it
      changes nothing at all. */
  lemma {:induction false} RuleOrder(hash: string -> string, snap: Snapshot, s: seq<Rule>, t: seq<Rule>)
    requires multiset(s) == multiset(t)
    ensures var a, b := ReportOf(hash, snap, s), ReportOf(hash, snap, t);
            && a.signature == b.signature && a.dispatchedCount == b.dispatchedCount
            && ExitCode(a) == ExitCode(b)
            && Map(SortKey, a.diagnostics) == Map(SortKey, b.diagnostics)
            && multiset(a.diagnostics) == multiset(b.diagnostics)
            && (KeysSeparate(ByKey(), Findings(hash, snap, s)) ==> a == b)
  {
    var f, g := Findings(hash, snap, s), Findings(hash, snap, t);
    FindingsPermute(hash, snap, s, t);
    ByKeyIsPreorder();
    SortPermutes(ByKey(), f);
    SortPermutes(ByKey(), g);
    SignaturePermutes(s, t);
    assert |multiset(s)| == |multiset(t)|;
    SameExit(hash, snap, s, t);
    SameKeys(f, g);
    if KeysSeparate(ByKey(), f) {
      PermutationsSortAlike(ByKey(), f, g);
    }
  }

  lemma SignaturePermutes(s: seq<Rule>, t: seq<Rule>)
    requires multiset(s) == multiset(t)
    ensures Signature(s) == Signature(t)
  {
    MapPermutes((r: Rule) => r.className, s, t);
    Walk.LexIsPreorder();
    Walk.LexSeparates(ClassNames(s));
    PermutationsSortAlike(LexLe, ClassNames(s), ClassNames(t));
  }

  lemma SameExit(hash: string -> string, snap: Snapshot, s: seq<Rule>, t: seq<Rule>)
    requires multiset(Findings(hash, snap, s)) == multiset(Findings(hash, snap, t))
    ensures ExitCode(ReportOf(hash, snap, s)) == ExitCode(ReportOf(hash, snap, t))
  {
    ExitCodeIff(hash, snap, s);
    ExitCodeIff(hash, snap, t);
    forall d ensures d in Findings(hash, snap, s) <==> d in Findings(hash, snap, t) {
      assert d in Findings(hash, snap, s) <==> d in multiset(Findings(hash, snap, s));
    }
  }

  lemma {:induction false} SameKeys(f: seq<Diagnostic>, g: seq<Diagnostic>)
    requires multiset(f) == multiset(g)
    ensures Map(SortKey, Sort(ByKey(), f)) == Map(SortKey, Sort(ByKey(), g))
  {
    KeysOfSort(KeyLe, SortKey, f);
    KeysOfSort(KeyLe, SortKey, g);
    MapPermutes(SortKey, f, g);
    ByKeyIsPreorder();
    KeysSeparateKeys(Map(SortKey, f));
    PermutationsSortAlike(KeyLe, Map(SortKey, f), Map(SortKey, g));
  }

  /** Two runs report the same diagnostics in the same order exactly when, key by key, they found the
      same ones in the same order. */
  lemma ReportsAgreeIff(hash: string -> string, snap: Snapshot, s: seq<Rule>, t: seq<Rule>)
    ensures ReportOf(hash, snap, s).diagnostics == ReportOf(hash, snap, t).diagnostics
            <==> SameClasses(ByKey(), Findings(hash, snap, s), Findings(hash, snap, t))
  {
    ByKeyIsPreorder();
    SortEqualIff(ByKey(), Findings(hash, snap, s), Findings(hash, snap, t));
  }

  /** So the authoring order can leak: two rules that report one place with different columns. */
  lemma RuleOrderCanLeak(hash: string -> string)
    ensures var d := Diagnostic(Info, "c", "p", "m", "", "", Some(1), Some(1), None);
            var e := d.(column := Some(2));
            var r, q := Rule("m.R", Returns([d])), Rule("m.Q", Returns([e]));
            var snap := Snapshot(None, None, []);
            ReportOf(hash, snap, [r, q]).diagnostics != ReportOf(hash, snap, [q, r]).diagnostics
  {
    var d := Diagnostic(Info, "c", "p", "m", "", "", Some(1), Some(1), None);
    var e := d.(column := Some(2));
    var r, q := Rule("m.R", Returns([d])), Rule("m.Q", Returns([e]));
    var snap := Snapshot(None, None, []);
    TwoRules(hash, r, q);
    TwoRules(hash, q, r);
    ClassOfTwo(d, d, e);
    ClassOfTwo(d, e, d);
    ReportsAgreeIff(hash, snap, [r, q], [q, r]);
  }

  lemma ClassOfTwo(k: Diagnostic, x: Diagnostic, y: Diagnostic)
    requires SortKey(x) == SortKey(k) && SortKey(y) == SortKey(k)
    ensures Class(ByKey(), k, [x, y]) == [x, y]
  {
    ByKeyIsPreorder();
    assert ByKey()(k, x) && ByKey()(x, k) && ByKey()(k, y) && ByKey()(y, k) by {
      KeyLeTotal(SortKey(k), SortKey(k));
    }
    assert [x, y][1..] == [y] && [y][1..] == [];
    assert Class(ByKey(), k, []) == [];
    assert Class(ByKey(), k, [y]) == [y] + Class(ByKey(), k, []);
  }

  lemma TwoRules(hash: string -> string, r: Rule, q: Rule)
    requires r.verdict.Returns? && q.verdict.Returns? && |r.verdict.results| == 1 && |q.verdict.results| == 1
    requires r.verdict.results[0].severity.Info? && q.verdict.results[0].severity.Info?
    ensures Findings(hash, Snapshot(None, None, []), [r, q]) == [r.verdict.results[0], q.verdict.results[0]]
  {
    var ds := [r.verdict.results[0], q.verdict.results[0]];
    assert [r] + [q] == [r, q] && [] + [r] == [r];
    CollectedGrows(hash, [r], q);
    CollectedGrows(hash, [], r);
    assert Collected(hash, [r, q]) == ds;
    assert ds == [ds[0]] + [ds[1]] && [] + [ds[0]] == [ds[0]];
    AdvicesGrow([ds[0]], ds[1]);
    AdvicesGrow([], ds[0]);
  }

  /** The signature binds the report to the rules that ran: equal preimages mean the same classes,
      each as often. */
  lemma SignatureIff(s: seq<Rule>, t: seq<Rule>)
    requires KeyLike(ClassNames(s)) && KeyLike(ClassNames(t))
    ensures Signature(s) == Signature(t) <==> multiset(ClassNames(s)) == multiset(ClassNames(t))
  {
    var a, b := ClassNames(s), ClassNames(t);
    SortPermutes(LexLe, a);
    SortPermutes(LexLe, b);
    if Signature(s) == Signature(t) {
      SortKeepsKeyLike(a);
      SortKeepsKeyLike(b);
      JoinedInjective(Sort(LexLe, a), Sort(LexLe, b));
    }
    if multiset(a) == multiset(b) {
      Walk.LexIsPreorder();
      Walk.LexSeparates(a);
      PermutationsSortAlike(LexLe, a, b);
    }
  }

  lemma SortKeepsKeyLike(keys: seq<string>)
    requires KeyLike(keys)
    ensures KeyLike(Sort(LexLe, keys))
  {
    SortPermutes(LexLe, keys);
    var s := Sort(LexLe, keys);
    forall i | 0 <= i < |s| ensures s[i] != "" && NUL !in s[i] {
      assert s[i] in keys;
    }
  }
}
