/** What the guard buys: the files do not depend on the order in which uncoordinated
    rows of one kind took effect. */
module Reordering {
  import opened Basics
  import opened Blackboards

  type Files = map<string, string>

  /** What a row does to the files. */
  type Effect = (Entry, Files) -> Files

  ghost predicate AgreeAt(s: Files, t: Files, p: string) {
    (p in s <==> p in t) && (p in s ==> s[p] == t[p])
  }

  ghost predicate SeenAlike(e: Entry, s: Files, t: Files) {
    forall p :: p in e.readSet + e.writeSet ==> AgreeAt(s, t, p)
  }

  /** A row changes only its write set, and what it writes depends only on what it reads or writes. */
  ghost predicate Local(effect: Effect) {
    && (forall e: Entry, s, p :: p !in e.writeSet ==> AgreeAt(effect(e, s), s, p))
    && (forall e: Entry, s, t, p :: SeenAlike(e, s, t) && p in e.writeSet
          ==> AgreeAt(effect(e, s), effect(e, t), p))
  }

  /** The files after the rows took effect in the order given. */
  ghost function Replay(effect: Effect, rows: seq<Entry>, s: Files): Files {
    if rows == [] then s else Replay(effect, rows[1..], effect(rows[0], s))
  }

  lemma FilesEqual(s: Files, t: Files)
    requires forall p :: AgreeAt(s, t, p)
    ensures s == t
  {
    assert forall p :: AgreeAt(s, t, p) ==> (p in s <==> p in t);
    assert s.Keys == t.Keys;
    assert forall p :: p in s ==> AgreeAt(s, t, p);
  }

  lemma SharedPathOverlaps(a: Entry, b: Entry, p: string)
    ensures p in a.readSet + a.writeSet && p in b.writeSet ==> Overlaps(a, b)
  {
    assert p in a.readSet + a.writeSet <==> p in a.writeSet + a.readSet;
    assert p in b.writeSet ==> p in b.writeSet + b.readSet;
  }

  lemma WrittenAlike(effect: Effect, a: Entry, b: Entry, s: Files, p: string)
    requires Local(effect) && !Overlaps(a, b) && p in a.writeSet
    ensures AgreeAt(effect(a, effect(b, s)), effect(b, effect(a, s)), p)
  {
    SharedPathOverlaps(a, b, p);
    forall q | q in a.readSet + a.writeSet ensures AgreeAt(effect(b, s), s, q) {
      SharedPathOverlaps(a, b, q);
    }
    assert SeenAlike(a, effect(b, s), s);
    assert AgreeAt(effect(a, effect(b, s)), effect(a, s), p);
    assert AgreeAt(effect(b, effect(a, s)), effect(a, s), p);
  }

  /** Rows that do not overlap commute. */
  lemma Commute(effect: Effect, a: Entry, b: Entry, s: Files)
    requires Local(effect) && !Overlaps(a, b)
    ensures effect(a, effect(b, s)) == effect(b, effect(a, s))
  {
    OverlapsSymmetric(a, b);
    forall p ensures AgreeAt(effect(a, effect(b, s)), effect(b, effect(a, s)), p) {
      if p in a.writeSet {
        WrittenAlike(effect, a, b, s, p);
      } else if p in b.writeSet {
        WrittenAlike(effect, b, a, s, p);
      } else {
        assert AgreeAt(effect(a, effect(b, s)), effect(b, s), p);
        assert AgreeAt(effect(b, effect(a, s)), effect(a, s), p);
        assert AgreeAt(effect(b, s), s, p) && AgreeAt(effect(a, s), s, p);
      }
    }
    FilesEqual(effect(a, effect(b, s)), effect(b, effect(a, s)));
  }

  /** They share no written path, and neither one that writes at all reads what the other writes. */
  ghost predicate Independent(a: Entry, b: Entry) {
    forall p ::
      && !(p in a.writeSet && p in b.writeSet)
      && !(a.writeSet != [] && p in a.readSet && p in b.writeSet)
      && !(b.writeSet != [] && p in b.readSet && p in a.writeSet)
  }

  lemma WritesNothing(effect: Effect, e: Entry, s: Files)
    requires Local(effect) && e.writeSet == []
    ensures effect(e, s) == s
  {
    forall p ensures AgreeAt(effect(e, s), s, p) {
      assert p !in e.writeSet;
    }
    FilesEqual(effect(e, s), s);
  }

  lemma IndependentCommute(effect: Effect, a: Entry, b: Entry, s: Files)
    requires Local(effect) && Independent(a, b)
    ensures effect(a, effect(b, s)) == effect(b, effect(a, s))
  {
    if a.writeSet == [] {
      WritesNothing(effect, a, s);
      WritesNothing(effect, a, effect(b, s));
    } else if b.writeSet == [] {
      WritesNothing(effect, b, s);
      WritesNothing(effect, b, effect(a, s));
    } else {
      Commute(effect, a, b, s);
    }
  }

  lemma NoOverlapIsIndependent(a: Entry, b: Entry)
    requires !Overlaps(a, b)
    ensures Independent(a, b)
  {
    OverlapsSymmetric(a, b);
    forall p
      ensures !(p in a.readSet + a.writeSet && p in b.writeSet) && !(p in b.readSet && p in a.writeSet)
    {
      SharedPathOverlaps(a, b, p);
      SharedPathOverlaps(b, a, p);
    }
  }

  /** A row that is independent of all its predecessors may take effect before them. */
  lemma {:induction false} MoveToFront(effect: Effect, before: seq<Entry>, e: Entry, s: Files)
    requires Local(effect)
    requires forall i :: 0 <= i < |before| ==> Independent(before[i], e)
    ensures Replay(effect, before + [e], s) == Replay(effect, before, effect(e, s))
  {
    if before == [] {
      assert before + [e] == [e];
    } else {
      assert (before + [e])[1..] == before[1..] + [e];
      MoveToFront(effect, before[1..], e, effect(before[0], s));
      IndependentCommute(effect, before[0], e, s);
    }
  }

  lemma {:induction false} ReplayAppend(effect: Effect, a: seq<Entry>, b: seq<Entry>, s: Files)
    ensures Replay(effect, a + b, s) == Replay(effect, b, Replay(effect, a, s))
  {
    if a == [] {
      assert a + b == b;
    } else {
      assert (a + b)[1..] == a[1..] + b;
      ReplayAppend(effect, a[1..], b, effect(a[0], s));
    }
  }

  /** `other` never swaps two rows of `rows` that are ordered by writer or parent. */
  ghost predicate KeepsOrder(rows: seq<Entry>, other: seq<Entry>) {
    forall i, j :: 0 <= i < j < |rows| && Follows(rows[i], rows[j]) ==> Before(other, rows[i], rows[j])
  }

  ghost predicate Before(s: seq<Entry>, a: Entry, b: Entry) {
    exists i, j :: 0 <= i < j < |s| && s[i] == a && s[j] == b
  }

  ghost function Without(s: seq<Entry>, k: int): seq<Entry>
    requires 0 <= k < |s|
  {
    s[..k] + s[k + 1..]
  }

  lemma {:induction false} CountedOnce(rows: seq<Entry>, x: Entry)
    requires UniqueIds(rows)
    ensures multiset(rows)[x] <= 1
  {
    if rows != [] {
      CountedOnce(rows[1..], x);
      assert rows == [rows[0]] + rows[1..];
    }
  }

  lemma {:induction false} CountedOnceIsDistinct(s: seq<Entry>)
    requires forall x :: multiset(s)[x] <= 1
    ensures NoDuplicates(s)
  {
    if s != [] {
      assert s == [s[0]] + s[1..];
      assert forall x :: multiset(s[1..])[x] <= multiset(s)[x];
      CountedOnceIsDistinct(s[1..]);
      assert multiset(s[1..])[s[0]] == 0;
      assert s[0] !in s[1..];
    }
  }

  lemma DistinctAfter(rows: seq<Entry>, other: seq<Entry>)
    requires UniqueIds(rows) && multiset(rows) == multiset(other)
    ensures NoDuplicates(other)
  {
    forall x ensures multiset(other)[x] <= 1 { CountedOnce(rows, x); }
    CountedOnceIsDistinct(other);
  }

  /** Taking the first row of `other` out of both sequences keeps them related. */
  lemma WithoutFirstOf(rows: seq<Entry>, other: seq<Entry>, k: int)
    requires multiset(rows) == multiset(other) && other != []
    requires 0 <= k < |rows| && rows[k] == other[0]
    ensures multiset(Without(rows, k)) == multiset(other[1..])
  {
    assert other == [other[0]] + other[1..];
    assert rows == rows[..k] + ([rows[k]] + rows[k + 1..]);
    assert multiset(Without(rows, k)) == multiset(rows) - multiset{rows[k]};
    assert multiset(other[1..]) == multiset(other) - multiset{other[0]};
  }

  lemma WithoutKeepsOrder(rows: seq<Entry>, other: seq<Entry>, k: int)
    requires UniqueIds(rows) && other != [] && KeepsOrder(rows, other)
    requires 0 <= k < |rows| && rows[k] == other[0]
    ensures KeepsOrder(Without(rows, k), other[1..])
  {
    var rest, tail := Without(rows, k), other[1..];
    forall i, j | 0 <= i < j < |rest| && Follows(rest[i], rest[j])
      ensures Before(tail, rest[i], rest[j])
    {
      var i', j' := if i < k then i else i + 1, if j < k then j else j + 1;
      assert rest[i] == rows[i'] && rest[j] == rows[j'];
      assert Before(other, rows[i'], rows[j']);
      var p, q :| 0 <= p < q < |other| && other[p] == rows[i'] && other[q] == rows[j'];
      assert p != 0;
      assert tail[p - 1] == rest[i] && tail[q - 1] == rest[j];
    }
  }

  /** Rows that are not ordered by writer or parent are independent, whatever their kinds. */
  ghost predicate Apart(rows: seq<Entry>) {
    && UniqueIds(rows)
    && forall i, j :: 0 <= i < j < |rows| && !Follows(rows[i], rows[j]) ==> Independent(rows[i], rows[j])
  }

  lemma WithoutStaysApart(rows: seq<Entry>, k: int)
    requires Apart(rows) && 0 <= k < |rows|
    ensures Apart(Without(rows, k))
  {
    var rest := Without(rows, k);
    assert forall i :: 0 <= i < |rest| ==> rest[i] == rows[if i < k then i else i + 1];
  }

  lemma NothingBeforeFirst(s: seq<Entry>, a: Entry)
    requires NoDuplicates(s) && s != []
    ensures !Before(s, a, s[0])
  {
  }

  lemma FirstIsIndependent(rows: seq<Entry>, other: seq<Entry>, k: int)
    requires Apart(rows) && multiset(rows) == multiset(other) && other != []
    requires KeepsOrder(rows, other)
    requires 0 <= k < |rows| && rows[k] == other[0]
    ensures forall i :: 0 <= i < k ==> Independent(rows[i], rows[k])
  {
    DistinctAfter(rows, other);
    forall i | 0 <= i < k ensures Independent(rows[i], rows[k]) {
      NothingBeforeFirst(other, rows[i]);
    }
  }

  lemma PullToFront(effect: Effect, rows: seq<Entry>, k: int, s: Files)
    requires Local(effect) && 0 <= k < |rows|
    requires forall i :: 0 <= i < k ==> Independent(rows[i], rows[k])
    ensures Replay(effect, rows, s) == Replay(effect, Without(rows, k), effect(rows[k], s))
  {
    var before, e, after := rows[..k], rows[k], rows[k + 1..];
    assert rows == (before + [e]) + after;
    ReplayAppend(effect, before + [e], after, s);
    MoveToFront(effect, before, e, s);
    ReplayAppend(effect, before, after, effect(e, s));
  }

  lemma {:induction false} ApartRowsReorder(effect: Effect, rows: seq<Entry>, other: seq<Entry>, s: Files)
    requires Local(effect) && Apart(rows)
    requires multiset(rows) == multiset(other) && KeepsOrder(rows, other)
    ensures Replay(effect, rows, s) == Replay(effect, other, s)
    decreases |other|
  {
    if other == [] {
      assert |multiset(rows)| == |multiset(other)|;
    } else {
      assert other[0] in multiset(other);
      var k :| 0 <= k < |rows| && rows[k] == other[0];
      FirstIsIndependent(rows, other, k);
      WithoutFirstOf(rows, other, k);
      WithoutKeepsOrder(rows, other, k);
      WithoutStaysApart(rows, k);
      PullToFront(effect, rows, k, s);
      ApartRowsReorder(effect, Without(rows, k), other[1..], effect(rows[k], s));
    }
  }

  lemma {:induction false} OfKindIsApart(rows: seq<Entry>, kind: string)
    requires UniqueIds(rows) && Coordinated(rows)
    ensures Apart(OfKind(rows, kind))
  {
    if rows != [] {
      var head, tail := rows[0], OfKind(rows[1..], kind);
      OfKindIsApart(rows[1..], kind);
      forall i | 0 <= i < |tail|
        ensures tail[i].id != head.id
        ensures head.kind == kind && !Follows(head, tail[i]) ==> Independent(head, tail[i])
      {
        FilterMember((x: Entry) => x.kind == kind, rows[1..], tail[i]);
        var k :| 0 <= k < |rows[1..]| && rows[1..][k] == tail[i];
        assert rows[k + 1] == tail[i];
        if !Overlaps(head, tail[i]) { NoOverlapIsIndependent(head, tail[i]); }
      }
    }
  }

  /** For every history of guarded writes, every kind of row and every effect that respects the
      declared sets: replaying that kind's rows in any order that keeps each writer's own order
      and the parent links leaves the same files. */
  lemma OrderDoesNotMatter(attempts: seq<Attempt>, kind: string, other: seq<Entry>, effect: Effect, s: Files)
    requires Local(effect)
    requires multiset(other) == multiset(OfKind(LogAfter(attempts), kind))
    requires KeepsOrder(OfKind(LogAfter(attempts), kind), other)
    ensures Replay(effect, other, s) == Replay(effect, OfKind(LogAfter(attempts), kind), s)
  {
    EveryLogIsCoordinated(attempts);
    OfKindIsApart(LogAfter(attempts), kind);
    ApartRowsReorder(effect, OfKind(LogAfter(attempts), kind), other, s);
  }

  /** Rows of different kinds that are not ordered are independent; the guard does not see to it. */
  ghost predicate KindsApart(rows: seq<Entry>) {
    forall i, j :: 0 <= i < j < |rows| && rows[i].kind != rows[j].kind && !Follows(rows[i], rows[j])
      ==> Independent(rows[i], rows[j])
  }

  /** The same for the whole log, all kinds together, as long as the kinds keep apart. */
  lemma WholeLogReorders(attempts: seq<Attempt>, other: seq<Entry>, effect: Effect, s: Files)
    requires Local(effect) && KindsApart(LogAfter(attempts))
    requires multiset(other) == multiset(LogAfter(attempts)) && KeepsOrder(LogAfter(attempts), other)
    ensures Replay(effect, other, s) == Replay(effect, LogAfter(attempts), s)
  {
    var log := LogAfter(attempts);
    EveryLogIsCoordinated(attempts);
    forall i, j | 0 <= i < j < |log| && !Follows(log[i], log[j]) ensures Independent(log[i], log[j]) {
      if log[i].kind == log[j].kind { NoOverlapIsIndependent(log[i], log[j]); }
    }
    ApartRowsReorder(effect, log, other, s);
  }

  // ---- Exactly which rows commute ------------------------------------------------------------------

  ghost predicate AlwaysCommute(a: Entry, b: Entry) {
    forall effect: Effect, s: Files :: Local(effect) ==> effect(a, effect(b, s)) == effect(b, effect(a, s))
  }

  /** What `e` sees at `p`: nothing unless it declares the path. */
  function Seen(e: Entry, s: Files, p: string): string {
    if p in e.readSet + e.writeSet && p in s then s[p] else ""
  }

  /** Every written path gets the row's id and what the row saw at `p`. */
  function Echo(p: string): Effect {
    (e: Entry, s: Files) => s + map q | q in e.writeSet :: e.id + "!" + Seen(e, s, p)
  }

  lemma EchoIsLocal(p: string)
    ensures Local(Echo(p))
  {
    forall e: Entry, s: Files, t: Files, q | SeenAlike(e, s, t) && q in e.writeSet
      ensures AgreeAt(Echo(p)(e, s), Echo(p)(e, t), q)
    {
      assert p in e.readSet + e.writeSet ==> AgreeAt(s, t, p);
      assert Seen(e, s, p) == Seen(e, t, p);
    }
  }

  lemma SharedWriteShows(a: Entry, b: Entry, p: string)
    requires a.id != b.id && p in a.writeSet && p in b.writeSet
    ensures !AlwaysCommute(a, b)
  {
    StampIsLocal();
    assert Stamp(a, Stamp(b, map[]))[p] == a.id;
    assert Stamp(b, Stamp(a, map[]))[p] == b.id;
  }

  lemma ReadShows(a: Entry, b: Entry, p: string)
    requires a.writeSet != [] && p in a.readSet && p in b.writeSet
    requires forall q :: !(q in a.writeSet && q in b.writeSet)
    ensures !AlwaysCommute(a, b)
  {
    EchoIsLocal(p);
    var f, q := Echo(p), a.writeSet[0];
    assert q in a.writeSet && q !in b.writeSet && p !in a.writeSet;
    var first, second := f(a, map[]), f(b, map[]);
    assert p !in first && first[q] == a.id + "!" + "";
    assert f(b, first)[q] == first[q];
    assert p in second && |second[p]| > 0;
    assert f(a, second)[q] == a.id + "!" + second[p];
    assert |f(a, second)[q]| > |f(b, first)[q]|;
  }

  /** Two rows have the same effect in either order, whatever they do within their declared sets and
      from whatever state, if and only if they are independent. */
  lemma CommuteIff(a: Entry, b: Entry)
    requires a.id != b.id
    ensures AlwaysCommute(a, b) <==> Independent(a, b)
  {
    if Independent(a, b) {
      forall effect: Effect, s: Files | Local(effect) ensures effect(a, effect(b, s)) == effect(b, effect(a, s)) {
        IndependentCommute(effect, a, b, s);
      }
    } else if p :| p in a.writeSet && p in b.writeSet {
      SharedWriteShows(a, b, p);
    } else if p :| a.writeSet != [] && p in a.readSet && p in b.writeSet {
      ReadShows(a, b, p);
    } else {
      var p :| b.writeSet != [] && p in b.readSet && p in a.writeSet;
      ReadShows(b, a, p);
      CommuteBothWays(a, b);
    }
  }

  lemma CommuteBothWays(a: Entry, b: Entry)
    ensures AlwaysCommute(a, b) <==> AlwaysCommute(b, a)
  {
    if AlwaysCommute(a, b) {
      forall effect: Effect, s: Files | Local(effect) ensures effect(b, effect(a, s)) == effect(a, effect(b, s)) {
      }
    }
    if AlwaysCommute(b, a) {
      forall effect: Effect, s: Files | Local(effect) ensures effect(a, effect(b, s)) == effect(b, effect(a, s)) {
      }
    }
  }

  // ---- The limit of the guarantee -------------------------------------------------

  function Stamp(e: Entry, s: Files): Files {
    s + map p | p in e.writeSet :: e.id
  }

  lemma ReplayTwo(effect: Effect, a: Entry, b: Entry, s: Files)
    ensures Replay(effect, [a, b], s) == effect(b, effect(a, s))
  {
    assert [a, b][1..] == [b] && [b][1..] == [];
    assert Replay(effect, [b], effect(a, s)) == Replay(effect, [], effect(b, effect(a, s)));
  }

  lemma StampIsLocal()
    ensures Local(Stamp)
  {
  }

  lemma BothKindsLand()
    ensures LogAfter([Attempt("w1", Plain("a", "file_version")), Attempt("w2", Plain("b", "plan"))])
            == [Plain("a", "file_version").(runId := "w1"), Plain("b", "plan").(runId := "w2")]
  {
    var a, b := Plain("a", "file_version"), Plain("b", "plan");
    var first := [a.(runId := "w1")];
    var one, two := [Attempt("w1", a)], [Attempt("w1", a), Attempt("w2", b)];
    assert one[..0] == [] && two[..1] == one;
    assert LogAfter(one) == Land(LogAfter([]), "w1", a) == first;
    PassesIff("w2", b, Query(first, "plan"));
    forall e ensures e !in Query(first, "plan") { QueryMembers(first, "plan", e); }
    assert LogAfter(two) == Land(first, "w2", b);
  }

  /** Rows of different kinds are never compared, so both may write one file, and then the
      order does matter. */
  lemma KindsAreNotComparedAcross()
    ensures
      var log := LogAfter([Attempt("w1", Plain("a", "file_version")), Attempt("w2", Plain("b", "plan"))]);
      && |log| == 2 && !Follows(log[0], log[1]) && Overlaps(log[0], log[1])
      && Local(Stamp)
      && Replay(Stamp, log, map[]) != Replay(Stamp, [log[1], log[0]], map[])
  {
    BothKindsLand();
    StampIsLocal();
    StampsDiffer();
  }

  lemma StampsDiffer()
    ensures var a, b := Plain("a", "file_version").(runId := "w1"), Plain("b", "plan").(runId := "w2");
            && !Follows(a, b) && Overlaps(a, b)
            && Replay(Stamp, [a, b], map[]) != Replay(Stamp, [b, a], map[])
  {
    var a, b := Plain("a", "file_version").(runId := "w1"), Plain("b", "plan").(runId := "w2");
    SharedPathOverlaps(a, b, "f");
    ReplayTwo(Stamp, a, b, map[]);
    ReplayTwo(Stamp, b, a, map[]);
    assert Stamp(b, Stamp(a, map[]))["f"] == "b";
    assert Stamp(a, Stamp(b, map[]))["f"] == "a";
  }
}
