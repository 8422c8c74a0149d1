/** Exactly when the order of the rules cannot be seen in the report. */
module KernelOrder {
  import opened Basics
  import opened Sorting
  import opened Kernel

  // ---- Concatenations that do not depend on the order ------------------------------------------------

  ghost predicate OrderFree<T(!new), U>(f: T -> seq<U>, s: seq<T>) {
    forall t :: multiset(t) == multiset(s) ==> FlatMap(f, t) == FlatMap(f, s)
  }

  /** What any two elements contribute reads the same in either order. */
  ghost predicate PairsCommute<T(!new), U>(f: T -> seq<U>, s: seq<T>) {
    forall x, y :: x in s && y in s ==> f(x) + f(y) == f(y) + f(x)
  }

  ghost predicate CommutesWith<T(!new), U>(f: T -> seq<U>, x: T, s: seq<T>) {
    forall y :: y in s ==> f(x) + f(y) == f(y) + f(x)
  }

  lemma {:induction false} PullOut<T(!new), U>(f: T -> seq<U>, x: T, before: seq<T>)
    requires CommutesWith(f, x, before)
    ensures FlatMap(f, before) + f(x) == f(x) + FlatMap(f, before)
  {
    if before != [] {
      var y, rest := before[0], before[1..];
      PullOut(f, x, rest);
      assert (f(y) + FlatMap(f, rest)) + f(x) == f(y) + (FlatMap(f, rest) + f(x));
      assert f(y) + (f(x) + FlatMap(f, rest)) == (f(y) + f(x)) + FlatMap(f, rest);
      assert (f(x) + f(y)) + FlatMap(f, rest) == f(x) + (f(y) + FlatMap(f, rest));
    }
  }

  lemma FlatMapAround<T(!new), U>(f: T -> seq<U>, a: seq<T>, x: T, b: seq<T>)
    ensures FlatMap(f, (a + [x]) + b) == (FlatMap(f, a) + f(x)) + FlatMap(f, b)
  {
    FlatMapAppend(f, a + [x], b);
    FlatMapAppend(f, a, [x]);
    FlatMapOne(f, x);
  }

  lemma Regroup<U>(a: seq<U>, b: seq<U>, c: seq<U>)
    ensures (a + b) + c == a + (b + c)
  {
  }

  lemma MiddleFirst<T(!new), U>(f: T -> seq<U>, a: seq<T>, x: T, b: seq<T>)
    requires CommutesWith(f, x, a)
    ensures FlatMap(f, (a + [x]) + b) == f(x) + FlatMap(f, a + b)
  {
    FlatMapAround(f, a, x, b);
    PullOut(f, x, a);
    Regroup(f(x), FlatMap(f, a), FlatMap(f, b));
    FlatMapAppend(f, a, b);
  }

  lemma FirstOut<T(!new), U>(f: T -> seq<U>, t: seq<T>, k: int)
    requires 0 <= k < |t| && CommutesWith(f, t[k], t[..k])
    ensures FlatMap(f, t) == f(t[k]) + FlatMap(f, t[..k] + t[k + 1..])
  {
    MiddleFirst(f, t[..k], t[k], t[k + 1..]);
    assert t == (t[..k] + [t[k]]) + t[k + 1..];
  }

  lemma {:induction false} CommutingIsOrderFree<T(!new), U>(f: T -> seq<U>, s: seq<T>, t: seq<T>)
    requires PairsCommute(f, s) && multiset(t) == multiset(s)
    ensures FlatMap(f, t) == FlatMap(f, s)
    decreases |s|
  {
    SameMultiset(s, t);
    if s != [] {
      assert s[0] in t;
      var k :| 0 <= k < |t| && t[k] == s[0];
      OneLess(s, t, k);
      assert forall y :: y in t[..k] ==> y in t;
      FirstOut(f, t, k);
      assert s[..0] + s[1..] == s[1..];
      CommutingIsOrderFree(f, s[1..], t[..k] + t[k + 1..]);
    }
  }

  lemma TwoInFront<T(!new)>(s: seq<T>, i: int, j: int)
    requires 0 <= i < j < |s|
    ensures var rest := s[..i] + s[i + 1..j] + s[j + 1..];
            multiset([s[i], s[j]] + rest) == multiset(s) && multiset([s[j], s[i]] + rest) == multiset(s)
  {
    assert s == s[..i] + [s[i]] + s[i + 1..j] + [s[j]] + s[j + 1..];
  }

  lemma FlatMapTwo<T, U>(f: T -> seq<U>, x: T, y: T, rest: seq<T>)
    ensures FlatMap(f, [x, y] + rest) == (f(x) + f(y)) + FlatMap(f, rest)
  {
    assert [x, y] == [x] + [y];
    FlatMapAppend(f, [x, y], rest);
    FlatMapAppend(f, [x], [y]);
    FlatMapOne(f, x);
    FlatMapOne(f, y);
  }

  lemma SameFront<U>(a: seq<U>, b: seq<U>, c: seq<U>, d: seq<U>)
    requires |a| == |c| && a + b == c + d
    ensures a == c && b == d
  {
    assert (a + b)[..|a|] == a && (c + d)[..|c|] == c;
    assert (a + b)[|a|..] == b && (c + d)[|c|..] == d;
  }

  lemma FrontCommutes<T, U>(f: T -> seq<U>, x: T, y: T, rest: seq<T>)
    requires FlatMap(f, [x, y] + rest) == FlatMap(f, [y, x] + rest)
    ensures f(x) + f(y) == f(y) + f(x)
  {
    FlatMapTwo(f, x, y, rest);
    FlatMapTwo(f, y, x, rest);
    SameFront(f(x) + f(y), FlatMap(f, rest), f(y) + f(x), FlatMap(f, rest));
  }

  lemma InOrder<T(!new), U>(f: T -> seq<U>, s: seq<T>, t: seq<T>)
    requires OrderFree(f, s) && multiset(t) == multiset(s)
    ensures FlatMap(f, t) == FlatMap(f, s)
  {
  }

  lemma OrderFreeCommutes<T(!new), U>(f: T -> seq<U>, s: seq<T>, i: int, j: int)
    requires OrderFree(f, s) && 0 <= i < j < |s|
    ensures f(s[i]) + f(s[j]) == f(s[j]) + f(s[i])
  {
    var rest := s[..i] + s[i + 1..j] + s[j + 1..];
    TwoInFront(s, i, j);
    InOrder(f, s, [s[i], s[j]] + rest);
    InOrder(f, s, [s[j], s[i]] + rest);
    FrontCommutes(f, s[i], s[j], rest);
  }

  lemma OrderFreeIff<T(!new), U>(f: T -> seq<U>, s: seq<T>)
    ensures OrderFree(f, s) <==> PairsCommute(f, s)
  {
    if PairsCommute(f, s) {
      forall t | multiset(t) == multiset(s) ensures FlatMap(f, t) == FlatMap(f, s) {
        CommutingIsOrderFree(f, s, t);
      }
    }
    if OrderFree(f, s) {
      forall x, y | x in s && y in s ensures f(x) + f(y) == f(y) + f(x) {
        var i :| 0 <= i < |s| && s[i] == x;
        var j :| 0 <= j < |s| && s[j] == y;
        if i < j {
          OrderFreeCommutes(f, s, i, j);
        } else if j < i {
          OrderFreeCommutes(f, s, j, i);
        }
      }
    }
  }

  // ---- What a rule contributes under one key ------------------------------------------------------------

  ghost function KeyResults(hash: string -> string, k: Diagnostic): Rule -> seq<Diagnostic> {
    (r: Rule) => Class(ByKey(), k, Output(hash, r))
  }

  ghost function KeyAdvices(hash: string -> string, k: Diagnostic): Rule -> seq<Diagnostic> {
    (r: Rule) => Class(ByKey(), k, Advices(Output(hash, r)))
  }

  lemma {:induction false} ClassOfCollected(hash: string -> string, k: Diagnostic, rules: seq<Rule>)
    ensures Class(ByKey(), k, Collected(hash, rules)) == FlatMap(KeyResults(hash, k), rules)
  {
    if rules != [] {
      ClassOfCollected(hash, k, rules[1..]);
      ClassAppend(ByKey(), k, Output(hash, rules[0]), Collected(hash, rules[1..]));
    }
  }

  lemma {:induction false} ClassOfAdvices(hash: string -> string, k: Diagnostic, rules: seq<Rule>)
    ensures Class(ByKey(), k, Advices(Collected(hash, rules))) == FlatMap(KeyAdvices(hash, k), rules)
  {
    if rules != [] {
      var first, rest := Output(hash, rules[0]), Collected(hash, rules[1..]);
      ClassOfAdvices(hash, k, rules[1..]);
      FlatMapAppend(AdviceOn, first, rest);
      ClassAppend(ByKey(), k, Advices(first), Advices(rest));
    }
  }

  /** What the kernel itself found. */
  function OwnFindings(snap: Snapshot): seq<Diagnostic> {
    (if snap.manifestProblem.Some? then [snap.manifestProblem.value] else []) + snap.blindSpots
  }

  lemma ClassOfFindings(hash: string -> string, snap: Snapshot, k: Diagnostic, rules: seq<Rule>)
    requires snap.empty.None?
    ensures Class(ByKey(), k, Findings(hash, snap, rules))
            == Class(ByKey(), k, OwnFindings(snap))
               + (FlatMap(KeyResults(hash, k), rules) + FlatMap(KeyAdvices(hash, k), rules))
  {
    assert Findings(hash, snap, rules)
           == OwnFindings(snap) + (Collected(hash, rules) + Advices(Collected(hash, rules)));
    ClassAppend(ByKey(), k, OwnFindings(snap), Collected(hash, rules) + Advices(Collected(hash, rules)));
    ClassAppend(ByKey(), k, Collected(hash, rules), Advices(Collected(hash, rules)));
    ClassOfCollected(hash, k, rules);
    ClassOfAdvices(hash, k, rules);
  }

  lemma KeyClassesAgreeIff(hash: string -> string, snap: Snapshot, k: Diagnostic, s: seq<Rule>, t: seq<Rule>)
    requires snap.empty.None? && multiset(s) == multiset(t)
    ensures Class(ByKey(), k, Findings(hash, snap, t)) == Class(ByKey(), k, Findings(hash, snap, s))
            <==> FlatMap(KeyResults(hash, k), t) == FlatMap(KeyResults(hash, k), s)
                 && FlatMap(KeyAdvices(hash, k), t) == FlatMap(KeyAdvices(hash, k), s)
  {
    ClassOfFindings(hash, snap, k, s);
    ClassOfFindings(hash, snap, k, t);
    FlatMapPermutes(KeyResults(hash, k), s, t);
    var own := Class(ByKey(), k, OwnFindings(snap));
    var a, b := FlatMap(KeyResults(hash, k), s), FlatMap(KeyAdvices(hash, k), s);
    var c, d := FlatMap(KeyResults(hash, k), t), FlatMap(KeyAdvices(hash, k), t);
    SameMultiset(a, c);
    if own + (a + b) == own + (c + d) {
      SameFront(own, a + b, own, c + d);
      SameFront(a, b, c, d);
    }
  }

  ghost predicate RulesCommute(hash: string -> string, s: seq<Rule>) {
    forall k :: PairsCommute(KeyResults(hash, k), s) && PairsCommute(KeyAdvices(hash, k), s)
  }

  ghost predicate OrderIsInvisible(hash: string -> string, snap: Snapshot, s: seq<Rule>) {
    forall t :: multiset(t) == multiset(s) ==> ReportOf(hash, snap, t) == ReportOf(hash, snap, s)
  }

  lemma CommutingRulesAgree(hash: string -> string, snap: Snapshot, s: seq<Rule>, t: seq<Rule>)
    requires snap.empty.None? && multiset(t) == multiset(s) && RulesCommute(hash, s)
    ensures ReportOf(hash, snap, t) == ReportOf(hash, snap, s)
  {
    forall k ensures Class(ByKey(), k, Findings(hash, snap, t)) == Class(ByKey(), k, Findings(hash, snap, s)) {
      OrderFreeIff(KeyResults(hash, k), s);
      OrderFreeIff(KeyAdvices(hash, k), s);
      KeyClassesAgreeIff(hash, snap, k, s, t);
    }
    ReportsAgreeIff(hash, snap, t, s);
    RuleOrder(hash, snap, t, s);
  }

  lemma InvisibleRulesCommute(hash: string -> string, snap: Snapshot, s: seq<Rule>, k: Diagnostic)
    requires snap.empty.None? && OrderIsInvisible(hash, snap, s)
    ensures PairsCommute(KeyResults(hash, k), s) && PairsCommute(KeyAdvices(hash, k), s)
  {
    forall t | multiset(t) == multiset(s)
      ensures FlatMap(KeyResults(hash, k), t) == FlatMap(KeyResults(hash, k), s)
      ensures FlatMap(KeyAdvices(hash, k), t) == FlatMap(KeyAdvices(hash, k), s)
    {
      assert ReportOf(hash, snap, t) == ReportOf(hash, snap, s);
      ReportsAgreeIff(hash, snap, t, s);
      KeyClassesAgreeIff(hash, snap, k, s, t);
    }
    OrderFreeIff(KeyResults(hash, k), s);
    OrderFreeIff(KeyAdvices(hash, k), s);
  }

  lemma NothingDispatched(hash: string -> string, snap: Snapshot, s: seq<Rule>, t: seq<Rule>)
    requires snap.empty.Some? && multiset(t) == multiset(s)
    ensures ReportOf(hash, snap, t) == ReportOf(hash, snap, s)
  {
    RuleOrder(hash, snap, t, s);
    assert Findings(hash, snap, t) == Findings(hash, snap, s);
  }

  /** Every order of the rules gives the same report if and only if, under every key, what any two of
      them contribute commutes: their results, and the advice on them. */
  lemma OrderIsInvisibleIff(hash: string -> string, snap: Snapshot, s: seq<Rule>)
    ensures OrderIsInvisible(hash, snap, s) <==> snap.empty.Some? || RulesCommute(hash, s)
  {
    if snap.empty.Some? {
      forall t | multiset(t) == multiset(s) ensures ReportOf(hash, snap, t) == ReportOf(hash, snap, s) {
        NothingDispatched(hash, snap, s, t);
      }
    } else {
      if RulesCommute(hash, s) {
        forall t | multiset(t) == multiset(s) ensures ReportOf(hash, snap, t) == ReportOf(hash, snap, s) {
          CommutingRulesAgree(hash, snap, s, t);
        }
      }
      if OrderIsInvisible(hash, snap, s) {
        forall k ensures PairsCommute(KeyResults(hash, k), s) && PairsCommute(KeyAdvices(hash, k), s) {
          InvisibleRulesCommute(hash, snap, s, k);
        }
      }
    }
  }
}
