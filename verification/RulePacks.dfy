/** The rule-pack digest: the layout of the snapshot id, but with the raw bytes of the sources, which
    may contain the terminator. */
module RulePacks {
  import opened Encoding

  /** What a pack may look like: which paths occur, and in which order they are fed. */
  datatype Layout = Layout(admits: Bytes -> bool, before: (Bytes, Bytes) -> bool)

  ghost predicate Pack(layout: Layout, s: seq<Item>) {
    && (forall i :: 0 <= i < |s| ==> 0 !in s[i].path && layout.admits(s[i].path))
    && (forall i, j :: 0 <= i < j < |s| && j == i + 1 ==> layout.before(s[i].path, s[j].path))
  }

  /** No other pack has the preimage of `s`. */
  ghost predicate ToldApart(layout: Layout, s: seq<Item>) {
    forall t :: Pack(layout, t) && Terminated(t) == Terminated(s) ==> t == s
  }

  /** Between the NULs at `i` and `j` the source holds a path that could follow its own. */
  ghost predicate HidesAt(layout: Layout, f: Item, i: int, j: int) {
    && 0 <= i < j < |f.text| && f.text[i] == 0 && f.text[j] == 0
    && 0 !in f.text[i + 1..j] && layout.admits(f.text[i + 1..j]) && layout.before(f.path, f.text[i + 1..j])
  }

  ghost predicate HidesFile(layout: Layout, f: Item) {
    exists i, j :: HidesAt(layout, f, i, j)
  }

  lemma {:induction false} EndsInNul(s: seq<Item>)
    requires s != []
    ensures Terminated(s) != [] && Terminated(s)[|Terminated(s)| - 1] == 0
  {
    if |s| > 1 {
      EndsInNul(s[1..]);
    } else {
      assert s[1..] == [];
    }
  }

  lemma OneTerminated(f: Item)
    ensures Terminated([f]) == f.path + [0] + f.text + [0]
  {
    assert [f][1..] == [];
  }

  /** One file whose source swallows all the others. */
  function Merged(s: seq<Item>): Item
    requires |s| >= 2
  {
    var rest := Terminated(s[1..]);
    Item(s[0].path, s[0].text + [0] + if rest == [] then [] else rest[..|rest| - 1])
  }

  lemma Swallows(path: Bytes, text: Bytes, rest: Bytes)
    requires rest != [] && rest[|rest| - 1] == 0
    ensures path + [0] + (text + [0] + rest[..|rest| - 1]) + [0] == path + [0] + text + [0] + rest
  {
    assert rest == rest[..|rest| - 1] + [0];
  }

  lemma MergedTerminates(s: seq<Item>)
    requires |s| >= 2
    ensures Terminated([Merged(s)]) == Terminated(s)
  {
    EndsInNul(s[1..]);
    OneTerminated(Merged(s));
    Swallows(s[0].path, s[0].text, Terminated(s[1..]));
  }

  lemma MergedIsAlike(layout: Layout, s: seq<Item>)
    requires Pack(layout, s) && |s| >= 2
    ensures Pack(layout, [Merged(s)]) && Terminated([Merged(s)]) == Terminated(s)
  {
    assert [Merged(s)][0].path == s[0].path;
    MergedTerminates(s);
  }

  lemma FirstOf(t: seq<Item>)
    requires t != []
    ensures Terminated(t) == t[0].path + [0] + (t[0].text + [0] + Terminated(t[1..]))
  {
  }

  /** The file `f` with the one it hides taken out of it. */
  lemma HiddenIsAlike(layout: Layout, f: Item, i: int, j: int) returns (t: seq<Item>)
    requires Pack(layout, [f]) && HidesAt(layout, f, i, j)
    ensures Pack(layout, t) && |t| == 2 && Terminated(t) == Terminated([f])
  {
    var x := f.text;
    var hidden := Item(x[i + 1..j], x[j + 1..]);
    t := [Item(f.path, x[..i]), hidden];
    assert t[1..] == [hidden];
    OneTerminated(hidden);
    OneTerminated(f);
    assert x == x[..i] + [0] + x[i + 1..j] + [0] + x[j + 1..];
    assert [f][0] == f;
  }

  lemma SecondIsHidden(layout: Layout, f: Item, t: seq<Item>)
    requires Pack(layout, [f]) && Pack(layout, t) && |t| >= 2 && Terminated(t) == Terminated([f])
    ensures HidesFile(layout, f)
  {
    var a, b := t[0], t[1];
    var tail, rest := Terminated(t[1..]), Terminated(t[1..][1..]);
    SameFirst(f, t);
    FirstOf(t[1..]);
    assert [f][0] == f;
    HiddenAt(layout, f, a.text, b.path, b.text + [0] + rest);
  }

  /** What has the preimage of one file begins with its path. */
  lemma SameFirst(f: Item, t: seq<Item>)
    requires 0 !in f.path && t != [] && 0 !in t[0].path && Terminated(t) == Terminated([f])
    ensures t[0].path == f.path && f.text + [0] == t[0].text + [0] + Terminated(t[1..])
  {
    FirstOf([f]);
    FirstOf(t);
    assert [f][1..] == [];
    assert f.text + [0] + Terminated([]) == f.text + [0];
    TerminatorSplits(f.path, f.text + [0], t[0].path, t[0].text + [0] + Terminated(t[1..]));
  }

  lemma HiddenAt(layout: Layout, f: Item, before: Bytes, path: Bytes, after: Bytes)
    requires f.text + [0] == before + [0] + (path + [0] + after) && after != []
    requires 0 !in path && layout.admits(path) && layout.before(f.path, path)
    ensures HidesFile(layout, f)
  {
    var all, i, j := f.text + [0], |before|, |before| + 1 + |path|;
    assert all[i] == 0 && all[j] == 0 && all[i + 1..j] == path;
    assert f.text[i] == all[i] && f.text[j] == all[j] && f.text[i + 1..j] == all[i + 1..j];
    assert HidesAt(layout, f, i, j);
  }

  lemma OneOfOne(layout: Layout, f: Item, t: seq<Item>)
    requires Pack(layout, [f]) && Pack(layout, t) && |t| == 1 && Terminated(t) == Terminated([f])
    ensures t == [f]
  {
    assert t == [t[0]] && t[1..] == [] && [f][0] == f;
    SameFirst(f, t);
    assert t[0].text + [0] + [] == t[0].text + [0];
    assert (f.text + [0])[..|f.text|] == f.text && (t[0].text + [0])[..|t[0].text|] == t[0].text;
  }

  /** The digest tells a pack apart from all others if and only if it is empty, or a single file
      whose source does not hide another one: with two files or more there is always one file with
      the same preimage. */
  lemma ToldApartIff(layout: Layout, s: seq<Item>)
    requires Pack(layout, s)
    ensures ToldApart(layout, s) <==> s == [] || (|s| == 1 && !HidesFile(layout, s[0]))
  {
    if s == [] {
      forall t | Pack(layout, t) && Terminated(t) == Terminated(s) ensures t == s {
        if t != [] { EndsInNul(t); }
      }
    } else if |s| == 1 {
      assert s == [s[0]];
      if HidesFile(layout, s[0]) {
        var i, j :| HidesAt(layout, s[0], i, j);
        var t := HiddenIsAlike(layout, s[0], i, j);
        assert t != s;
      } else {
        forall t | Pack(layout, t) && Terminated(t) == Terminated(s) ensures t == s {
          SoleSource(layout, s[0], t);
        }
      }
    } else {
      MergedIsAlike(layout, s);
      assert |[Merged(s)]| == 1;
    }
  }

  lemma SoleSource(layout: Layout, f: Item, t: seq<Item>)
    requires Pack(layout, [f]) && !HidesFile(layout, f) && Pack(layout, t) && Terminated(t) == Terminated([f])
    ensures t == [f]
  {
    EndsInNul([f]);
    if |t| == 1 {
      OneOfOne(layout, f, t);
    } else if |t| >= 2 {
      SecondIsHidden(layout, f, t);
    }
  }

  // ---- For all paths ----------------------------------------------------------------------------------

  const ANY_PATHS := Layout((_: Bytes) => true, (_: Bytes, _: Bytes) => true)

  ghost predicate TwoNuls(x: Bytes) {
    exists i, j :: 0 <= i < j < |x| && x[i] == 0 && x[j] == 0
  }

  lemma {:induction false} NextNul(x: Bytes, i: int, j: int) returns (k: int)
    requires 0 <= i < j < |x| && x[j] == 0
    ensures i < k <= j && x[k] == 0 && 0 !in x[i + 1..k]
    decreases j - i
  {
    k := j;
    if m :| i < m < j && x[m] == 0 {
      k := NextNul(x, i, m);
    }
  }

  /** When every NUL-free path may occur, in every order, a single file is told apart exactly when
      its source has at most one NUL. */
  lemma AnyPathsToldApartIff(s: seq<Item>)
    requires Pack(ANY_PATHS, s)
    ensures ToldApart(ANY_PATHS, s) <==> s == [] || (|s| == 1 && !TwoNuls(s[0].text))
  {
    ToldApartIff(ANY_PATHS, s);
    if |s| == 1 {
      var f := s[0];
      if TwoNuls(f.text) {
        var i, j :| 0 <= i < j < |f.text| && f.text[i] == 0 && f.text[j] == 0;
        var k := NextNul(f.text, i, j);
        assert HidesAt(ANY_PATHS, f, i, k);
      }
      if HidesFile(ANY_PATHS, f) {
        var i, j :| HidesAt(ANY_PATHS, f, i, j);
        assert f.text[i] == 0 && f.text[j] == 0;
      }
    }
  }

  /** Packs whose sources contain no NUL are told apart from each other. */
  lemma CleanPacksToldApart(layout: Layout, s: seq<Item>, t: seq<Item>)
    requires Pack(layout, s) && Pack(layout, t) && Terminated(s) == Terminated(t)
    requires forall i :: 0 <= i < |s| ==> 0 !in s[i].text
    requires forall i :: 0 <= i < |t| ==> 0 !in t[i].text
    ensures s == t
  {
    TerminatedInjective(s, t);
  }

  // ---- An instance ------------------------------------------------------------------------------------

  const DOT_PY: Bytes := [46, 112, 121]

  /** Paths that end in ".py". */
  predicate IsPy(path: Bytes) {
    |path| > 3 && path[|path| - 3..] == DOT_PY
  }

  /** The pack of "a.py" and "b.py", and a pack of "a.py" alone, with one preimage. */
  lemma RawSourcesCollide()
    ensures var a, b := [97] + DOT_PY, [98] + DOT_PY;
            var one := [Item(a, [120, 0] + b + [0, 121])];
            var two := [Item(a, [120]), Item(b, [121])];
            IsPy(a) && IsPy(b) && one != two && Terminated(one) == Terminated(two)
  {
    var a, b := [97] + DOT_PY, [98] + DOT_PY;
    var two := [Item(a, [120]), Item(b, [121])];
    assert two[1..] == [two[1]];
    OneTerminated(Item(a, [120, 0] + b + [0, 121]));
    OneTerminated(two[1]);
  }
}
