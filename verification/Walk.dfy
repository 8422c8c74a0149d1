/** Enumerating the repository: a directory walk with an explicit stack, and the sorted list of
    paths that comes out of it. */
module Walk {
  import opened Basics
  import opened Sorting

  /** A directory's entries stand in the order in which the file system happens to list them. */
  datatype Node = File | Dir(entries: seq<Entry>) | Symlink | Special
  datatype Entry = Entry(name: string, node: Node)

  type Path = seq<string>

  const SKIP_DIRS: set<string> :=
    {".git", ".hg", ".svn", "__pycache__", ".mypy_cache", ".pytest_cache", ".ruff_cache", ".tox", ".venv", "venv",
     "node_modules", ".idea", ".vscode"}

  // ---- What the walk should find -----------------------------------------------------------------

  /** `p` names a file below `entries`, through directories that are neither skipped nor symlinks. */
  ghost predicate Reaches(entries: seq<Entry>, p: Path)
    decreases |p|
  {
    p != [] && exists i :: 0 <= i < |entries| && ReachesBy(entries[i], p)
  }

  ghost predicate ReachesBy(e: Entry, p: Path)
    requires p != []
    decreases |p|, 0
  {
    e.name == p[0] &&
    if |p| == 1 then e.node.File?
    else e.node.Dir? && e.name !in SKIP_DIRS && Reaches(e.node.entries, p[1..])
  }

  /** The recursive walk: files in listing order. */
  function FilesIn(entries: seq<Entry>, at: Path): seq<Path>
    decreases entries
  {
    if entries == [] then []
    else FilesOf(entries[0], at) + FilesIn(entries[1..], at)
  }

  function FilesOf(e: Entry, at: Path): seq<Path>
    decreases e
  {
    match e.node
    case File => [at + [e.name]]
    case Dir(entries) => if e.name in SKIP_DIRS then [] else FilesIn(entries, at + [e.name])
    case _ => []
  }

  // ---- The walk as it runs --------------------------------------------------------------------------

  datatype Visit = Visit(at: Path, entries: seq<Entry>)

  function Weight(entries: seq<Entry>): nat
    decreases entries
  {
    if entries == [] then 1 else WeightOf(entries[0]) + Weight(entries[1..])
  }

  function WeightOf(e: Entry): nat
    decreases e
  {
    if e.node.Dir? then 1 + Weight(e.node.entries) else 0
  }

  function StackWeight(stack: seq<Visit>): nat {
    if stack == [] then 0 else StackWeight(stack[..|stack| - 1]) + Weight(stack[|stack| - 1].entries)
  }

  ghost function Pending(stack: seq<Visit>): multiset<Path> {
    if stack == [] then multiset{}
    else Pending(stack[..|stack| - 1]) + multiset(FilesIn(stack[|stack| - 1].entries, stack[|stack| - 1].at))
  }

  lemma PendingPush(stack: seq<Visit>, v: Visit)
    ensures Pending(stack + [v]) == Pending(stack) + multiset(FilesIn(v.entries, v.at))
    ensures StackWeight(stack + [v]) == StackWeight(stack) + Weight(v.entries)
  {
    assert (stack + [v])[..|stack|] == stack;
  }

  /** Handle the entries of one directory: yield its files, push its directories. */
  method VisitEntries(at: Path, entries: seq<Entry>, found: seq<Path>, stack: seq<Visit>)
    returns (found': seq<Path>, stack': seq<Visit>)
    ensures multiset(found') + Pending(stack') == multiset(found) + Pending(stack) + multiset(FilesIn(entries, at))
    ensures StackWeight(stack') < StackWeight(stack) + Weight(entries)
  {
    found', stack' := found, stack;
    for i := 0 to |entries|
      invariant multiset(found') + Pending(stack') + multiset(FilesIn(entries[i..], at))
                == multiset(found) + Pending(stack) + multiset(FilesIn(entries, at))
      invariant StackWeight(stack') + Weight(entries[i..]) <= StackWeight(stack) + Weight(entries)
    {
      var e := entries[i];
      assert entries[i..][1..] == entries[i + 1..];
      if e.node.Symlink? {
        continue;
      }
      if e.node.Dir? {
        if e.name !in SKIP_DIRS {
          PendingPush(stack', Visit(at + [e.name], e.node.entries));
          stack' := stack' + [Visit(at + [e.name], e.node.entries)];
        }
      } else if e.node.File? {
        found' := found' + [at + [e.name]];
      }
    }
  }

  lemma PendingPop(stack: seq<Visit>, found: multiset<Path>, all: multiset<Path>)
    requires stack != [] && found + Pending(stack) == all
    ensures var n := |stack| - 1;
            && found + Pending(stack[..n]) + multiset(FilesIn(stack[n].entries, stack[n].at)) == all
            && StackWeight(stack) == StackWeight(stack[..n]) + Weight(stack[n].entries)
  {
  }

  lemma PendingStart(root: seq<Entry>)
    ensures Pending([Visit([], root)]) == multiset(FilesIn(root, []))
  {
    PendingPush([], Visit([], root));
    assert [] + [Visit([], root)] == [Visit([], root)];
  }

  method WalkFiles(root: seq<Entry>) returns (found: seq<Path>)
    ensures multiset(found) == multiset(FilesIn(root, []))
  {
    var stack := [Visit([], root)];
    found := [];
    PendingStart(root);
    while stack != []
      invariant multiset(found) + Pending(stack) == multiset(FilesIn(root, []))
      decreases StackWeight(stack)
    {
      var n := |stack| - 1;
      var current := stack[n];
      PendingPop(stack, multiset(found), multiset(FilesIn(root, [])));
      found, stack := VisitEntries(current.at, current.entries, found, stack[..n]);
    }
  }

  // ---- Each reachable file, exactly once ---------------------------------------------------------------

  /** No directory lists one name twice. */
  ghost predicate Proper(entries: seq<Entry>)
    decreases entries
  {
    && (forall i, j :: 0 <= i < j < |entries| ==> entries[i].name != entries[j].name)
    && forall i :: 0 <= i < |entries| && entries[i].node.Dir? ==> Proper(entries[i].node.entries)
  }

  lemma {:induction false} FilesInReach(entries: seq<Entry>, at: Path, p: Path)
    ensures at + p in FilesIn(entries, at) <==> Reaches(entries, p)
    decreases entries
  {
    if entries == [] {
    } else {
      FilesOfReach(entries[0], at, p);
      FilesInReach(entries[1..], at, p);
      if Reaches(entries, p) {
        var i :| 0 <= i < |entries| && ReachesBy(entries[i], p);
        if i > 0 { assert entries[1..][i - 1] == entries[i]; }
      }
      if Reaches(entries[1..], p) {
        var i :| 0 <= i < |entries[1..]| && ReachesBy(entries[1..][i], p);
        assert entries[i + 1] == entries[1..][i];
      }
    }
  }

  lemma {:induction false} FilesOfReach(e: Entry, at: Path, p: Path)
    ensures at + p in FilesOf(e, at) <==> p != [] && ReachesBy(e, p)
    decreases e
  {
    match e.node
    case File =>
      assert (at + p == at + [e.name]) <==> p == [e.name] by {
        if at + p == at + [e.name] { assert p == (at + p)[|at|..] == (at + [e.name])[|at|..] == [e.name]; }
      }
    case Dir(entries) =>
      FilesInExtend(entries, at + [e.name]);
      if p != [] && p[0] == e.name {
        FilesInReach(entries, at + [e.name], p[1..]);
        assert (at + [e.name]) + p[1..] == at + p;
      } else {
        PrefixHead(at, e.name, p);
      }
    case _ =>
  }

  lemma PrefixHead(at: Path, name: string, p: Path)
    ensures at + [name] < at + p ==> p != [] && p[0] == name
  {
    if at + [name] < at + p { assert (at + p)[|at|] == name; }
  }

  /** Every path found below `at` properly extends it. */
  lemma {:induction false} FilesInExtend(entries: seq<Entry>, at: Path)
    ensures forall q :: q in FilesIn(entries, at) ==> at < q
    decreases entries
  {
    if entries != [] {
      FilesOfExtend(entries[0], at);
      FilesInExtend(entries[1..], at);
      forall q | q in FilesOf(entries[0], at) ensures at < q {
        assert at < at + [entries[0].name];
      }
    }
  }

  lemma {:induction false} FilesOfExtend(e: Entry, at: Path)
    ensures forall q :: q in FilesOf(e, at) ==> at + [e.name] <= q
    decreases e
  {
    if e.node.Dir? && e.name !in SKIP_DIRS {
      FilesInExtend(e.node.entries, at + [e.name]);
    }
  }

  lemma {:induction false} FilesInOnce(entries: seq<Entry>, at: Path)
    requires Proper(entries)
    ensures NoDuplicates(FilesIn(entries, at))
    decreases entries
  {
    if entries != [] {
      var head, rest := FilesOf(entries[0], at), FilesIn(entries[1..], at);
      FilesOfOnce(entries[0], at);
      FilesInOnce(entries[1..], at);
      FilesOfExtend(entries[0], at);
      forall q | q in head ensures q !in rest {
        assert at + [entries[0].name] <= q;
        assert q[|at|] == entries[0].name;
        NamesOfFound(entries[1..], at, q);
      }
      DisjointAppend(head, rest);
    }
  }

  lemma DisjointAppend(a: seq<Path>, b: seq<Path>)
    requires NoDuplicates(a) && NoDuplicates(b) && forall q :: q in a ==> q !in b
    ensures NoDuplicates(a + b)
  {
    forall i, j | 0 <= i < j < |a + b| ensures (a + b)[i] != (a + b)[j] {
      if i < |a| && |a| <= j { assert a[i] in a && b[j - |a|] in b; }
    }
  }

  /** What is found below `at` goes through one of the names listed there. */
  lemma {:induction false} NamesOfFound(entries: seq<Entry>, at: Path, q: Path)
    ensures q in FilesIn(entries, at) ==> |at| < |q| && exists i :: 0 <= i < |entries| && entries[i].name == q[|at|]
    decreases entries
  {
    if entries != [] {
      NamesOfFound(entries[1..], at, q);
      FilesOfExtend(entries[0], at);
      if q in FilesOf(entries[0], at) {
        assert at + [entries[0].name] <= q;
        assert q[|at|] == entries[0].name;
      } else if q in FilesIn(entries, at) {
        var i :| 0 <= i < |entries[1..]| && entries[1..][i].name == q[|at|];
        assert entries[i + 1].name == q[|at|];
      }
    }
  }

  lemma {:induction false} FilesOfOnce(e: Entry, at: Path)
    requires e.node.Dir? ==> Proper(e.node.entries)
    ensures NoDuplicates(FilesOf(e, at))
    decreases e
  {
    if e.node.Dir? && e.name !in SKIP_DIRS {
      FilesInOnce(e.node.entries, at + [e.name]);
    }
  }

  lemma {:induction false} CountOf<T(!new)>(s: seq<T>, x: T)
    requires NoDuplicates(s)
    ensures multiset(s)[x] == if x in s then 1 else 0
  {
    if s != [] {
      assert s == [s[0]] + s[1..];
      CountOf(s[1..], x);
    }
  }

  /** The walk yields every reachable file once and nothing else. */
  lemma WalkIsExact(root: seq<Entry>, found: seq<Path>, p: Path)
    requires Proper(root) && multiset(found) == multiset(FilesIn(root, []))
    ensures multiset(found)[p] == if Reaches(root, p) then 1 else 0
  {
    FilesInOnce(root, []);
    CountOf(FilesIn(root, []), p);
    FilesInReach(root, [], p);
    assert [] + p == p;
  }

  // ---- The sorted result does not depend on the listing --------------------------------------------------

  /** The same names in some order, with the same things below them. */
  ghost predicate Relisted(a: seq<Entry>, b: seq<Entry>)
    decreases a
  {
    FirstIn(a, b, |a|) && SecondIn(a, b, |b|)
  }

  /** The first `n` entries of `a` occur in `b`. */
  ghost predicate FirstIn(a: seq<Entry>, b: seq<Entry>, n: nat)
    requires n <= |a|
    decreases a, 0, n
  {
    n > 0 ==> (exists j :: 0 <= j < |b| && RelistedEntry(a[n - 1], b[j])) && FirstIn(a, b, n - 1)
  }

  /** The first `n` entries of `b` occur in `a`. */
  ghost predicate SecondIn(a: seq<Entry>, b: seq<Entry>, n: nat)
    requires n <= |b|
    decreases a, 0, n
  {
    n > 0 ==> (exists i :: 0 <= i < |a| && RelistedEntry(a[i], b[n - 1])) && SecondIn(a, b, n - 1)
  }

  ghost predicate RelistedEntry(x: Entry, y: Entry)
    decreases x
  {
    x.name == y.name &&
    match x.node
    case Dir(entries) => y.node.Dir? && Relisted(entries, y.node.entries)
    case _ => x.node == y.node
  }

  lemma {:induction false} FirstTwin(a: seq<Entry>, b: seq<Entry>, n: nat, i: nat) returns (j: nat)
    requires i < n <= |a| && FirstIn(a, b, n)
    ensures j < |b| && RelistedEntry(a[i], b[j])
  {
    if i == n - 1 {
      j :| 0 <= j < |b| && RelistedEntry(a[n - 1], b[j]);
    } else {
      j := FirstTwin(a, b, n - 1, i);
    }
  }

  lemma {:induction false} SecondTwin(a: seq<Entry>, b: seq<Entry>, n: nat, j: nat) returns (i: nat)
    requires j < n <= |b| && SecondIn(a, b, n)
    ensures i < |a| && RelistedEntry(a[i], b[j])
  {
    if j == n - 1 {
      i :| 0 <= i < |a| && RelistedEntry(a[i], b[n - 1]);
    } else {
      i := SecondTwin(a, b, n - 1, j);
    }
  }

  lemma {:induction false} RelistedReaches(a: seq<Entry>, b: seq<Entry>, p: Path)
    requires Relisted(a, b)
    ensures Reaches(a, p) <==> Reaches(b, p)
    decreases |p|, 1
  {
    if Reaches(a, p) {
      var i: nat :| i < |a| && ReachesBy(a[i], p);
      var j := FirstTwin(a, b, |a|, i);
      RelistedEntryReaches(a[i], b[j], p);
    }
    if Reaches(b, p) {
      var j: nat :| j < |b| && ReachesBy(b[j], p);
      var i := SecondTwin(a, b, |b|, j);
      RelistedEntryReaches(a[i], b[j], p);
    }
  }

  lemma {:induction false} RelistedEntryReaches(x: Entry, y: Entry, p: Path)
    requires RelistedEntry(x, y) && p != []
    ensures ReachesBy(x, p) <==> ReachesBy(y, p)
    decreases |p|, 0
  {
    if |p| > 1 && x.node.Dir? {
      RelistedReaches(x.node.entries, y.node.entries, p[1..]);
    }
  }

  function Posix(p: Path): string {
    if p == [] then "" else if |p| == 1 then p[0] else p[0] + "/" + Posix(p[1..])
  }

  lemma LexIsPreorder()
    ensures Preorder(LexLe)
  {
    forall x, y ensures LexLe(x, y) || LexLe(y, x) { LexTotal(x, y); }
    forall x, y, z | LexLe(x, y) && LexLe(y, z) ensures LexLe(x, z) { LexTransitive(x, y, z); }
  }

  lemma LexSeparates(s: seq<string>)
    ensures KeysSeparate(LexLe, s)
  {
    forall x, y | x in s && y in s && LexLe(x, y) && LexLe(y, x) ensures x == y { LexAntisymmetric(x, y); }
  }

  method EnumeratePaths(root: seq<Entry>) returns (paths: seq<string>)
    ensures paths == Sort(LexLe, Map(Posix, FilesIn(root, [])))
    ensures Sorted(LexLe, paths)
  {
    var found := WalkFiles(root);
    paths := Sort(LexLe, Map(Posix, found));
    MapPermutes(Posix, found, FilesIn(root, []));
    LexIsPreorder();
    LexSeparates(Map(Posix, found));
    PermutationsSortAlike(LexLe, Map(Posix, found), Map(Posix, FilesIn(root, [])));
    SortSorted(LexLe, Map(Posix, found));
  }

  /** However the file system lists one tree, the enumeration is the same. */
  lemma ListingOrderIsInvisible(a: seq<Entry>, b: seq<Entry>)
    requires Proper(a) && Proper(b) && Relisted(a, b)
    ensures Sort(LexLe, Map(Posix, FilesIn(a, []))) == Sort(LexLe, Map(Posix, FilesIn(b, [])))
  {
    forall p ensures multiset(FilesIn(a, []))[p] == multiset(FilesIn(b, []))[p] {
      WalkIsExact(a, FilesIn(a, []), p);
      WalkIsExact(b, FilesIn(b, []), p);
      RelistedReaches(a, b, p);
    }
    assert multiset(FilesIn(a, [])) == multiset(FilesIn(b, []));
    MapPermutes(Posix, FilesIn(a, []), FilesIn(b, []));
    LexIsPreorder();
    LexSeparates(Map(Posix, FilesIn(a, [])));
    PermutationsSortAlike(LexLe, Map(Posix, FilesIn(a, [])), Map(Posix, FilesIn(b, [])));
  }
}
