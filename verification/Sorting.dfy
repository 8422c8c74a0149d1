/** Python's `sorted`: a stable sort, specified by what it does to the classes of
    elements that compare equal. */
module Sorting {
  import opened Basics

  ghost predicate Total<T(!new)>(le: (T, T) -> bool) {
    forall x, y :: le(x, y) || le(y, x)
  }

  ghost predicate Transitive<T(!new)>(le: (T, T) -> bool) {
    forall x, y, z :: le(x, y) && le(y, z) ==> le(x, z)
  }

  /** What `sorted` needs of a comparison; different elements may still compare equal. */
  ghost predicate Preorder<T(!new)>(le: (T, T) -> bool) {
    Total(le) && Transitive(le)
  }

  ghost predicate Sorted<T>(le: (T, T) -> bool, s: seq<T>) {
    forall i, j :: 0 <= i < j < |s| ==> le(s[i], s[j])
  }

  function Insert<T>(le: (T, T) -> bool, x: T, s: seq<T>): seq<T> {
    if s == [] || le(x, s[0]) then [x] + s
    else [s[0]] + Insert(le, x, s[1..])
  }

  function Sort<T>(le: (T, T) -> bool, s: seq<T>): seq<T> {
    if s == [] then [] else Insert(le, s[0], Sort(le, s[1..]))
  }

  /** The elements of `s` that compare equal to `k`, in the order `s` has them. */
  ghost function Class<T(!new)>(le: (T, T) -> bool, k: T, s: seq<T>): seq<T> {
    if s == [] then []
    else (if le(s[0], k) && le(k, s[0]) then [s[0]] else []) + Class(le, k, s[1..])
  }

  ghost predicate SameClasses<T(!new)>(le: (T, T) -> bool, s: seq<T>, t: seq<T>) {
    forall k :: Class(le, k, s) == Class(le, k, t)
  }

  lemma {:induction false} InsertPermutes<T>(le: (T, T) -> bool, x: T, s: seq<T>)
    ensures multiset(Insert(le, x, s)) == multiset(s) + multiset{x}
  {
    if !(s == [] || le(x, s[0])) {
      InsertPermutes(le, x, s[1..]);
      assert s == [s[0]] + s[1..];
    }
  }

  lemma {:induction false} SortPermutes<T>(le: (T, T) -> bool, s: seq<T>)
    ensures multiset(Sort(le, s)) == multiset(s)
    ensures |Sort(le, s)| == |s|
    ensures forall x :: x in Sort(le, s) <==> x in s
  {
    if s != [] {
      SortPermutes(le, s[1..]);
      InsertPermutes(le, s[0], Sort(le, s[1..]));
      assert s == [s[0]] + s[1..];
    }
    SameMultiset(Sort(le, s), s);
  }

  lemma SameMultiset<T>(a: seq<T>, b: seq<T>)
    requires multiset(a) == multiset(b)
    ensures |a| == |b| && forall x :: x in a <==> x in b
  {
    assert |multiset(a)| == |multiset(b)|;
    forall x ensures x in a <==> x in b {
      assert x in multiset(a) <==> x in multiset(b);
    }
  }

  lemma {:induction false} InsertSorted<T(!new)>(le: (T, T) -> bool, x: T, s: seq<T>)
    requires Preorder(le) && Sorted(le, s)
    ensures Sorted(le, Insert(le, x, s))
  {
    if !(s == [] || le(x, s[0])) {
      InsertSorted(le, x, s[1..]);
      InsertPermutes(le, x, s[1..]);
      var t := Insert(le, x, s[1..]);
      forall j | 0 <= j < |t| ensures le(s[0], t[j]) {
        assert t[j] in multiset(t);
        assert t[j] == x || t[j] in s[1..];
      }
    } else if s != [] {
      assert forall j :: 0 <= j < |s| ==> le(x, s[j]);
    }
  }

  lemma {:induction false} SortSorted<T(!new)>(le: (T, T) -> bool, s: seq<T>)
    requires Preorder(le)
    ensures Sorted(le, Sort(le, s))
  {
    if s != [] {
      SortSorted(le, s[1..]);
      InsertSorted(le, s[0], Sort(le, s[1..]));
    }
  }

  lemma {:induction false} ClassOfInsert<T(!new)>(le: (T, T) -> bool, k: T, x: T, s: seq<T>)
    requires Preorder(le)
    ensures Class(le, k, Insert(le, x, s)) == Class(le, k, [x]) + Class(le, k, s)
  {
    if s == [] || le(x, s[0]) {
      assert ([x] + s)[1..] == s;
    } else {
      ClassOfInsert(le, k, x, s[1..]);
      var t := Insert(le, x, s[1..]);
      assert ([s[0]] + t)[1..] == t;
      // x does not precede s[0], so the two cannot both compare equal to k.
      assert !(le(x, k) && le(k, x) && le(s[0], k) && le(k, s[0]));
    }
  }

  /** Stability: sorting keeps every class of equal elements exactly as it was. */
  lemma {:induction false} SortKeepsClasses<T(!new)>(le: (T, T) -> bool, k: T, s: seq<T>)
    requires Preorder(le)
    ensures Class(le, k, Sort(le, s)) == Class(le, k, s)
  {
    if s != [] {
      SortKeepsClasses(le, k, s[1..]);
      ClassOfInsert(le, k, s[0], Sort(le, s[1..]));
    }
  }

  lemma {:induction false} ClassMembers<T(!new)>(le: (T, T) -> bool, k: T, s: seq<T>)
    ensures forall x :: x in Class(le, k, s) <==> x in s && le(x, k) && le(k, x)
  {
    if s != [] {
      ClassMembers(le, k, s[1..]);
      assert s == [s[0]] + s[1..];
    }
  }

  lemma {:induction false} EmptyClass<T(!new)>(le: (T, T) -> bool, k: T, s: seq<T>)
    ensures Class(le, k, s) == [] <==> forall x :: x in s ==> !(le(x, k) && le(k, x))
  {
    if s != [] {
      EmptyClass(le, k, s[1..]);
      assert s == [s[0]] + s[1..];
    }
  }

  lemma SameClassesNonempty<T(!new)>(le: (T, T) -> bool, u: seq<T>, v: seq<T>)
    requires Total(le) && SameClasses(le, u, v) && u != []
    ensures v != []
  {
    EmptyClass(le, u[0], u);
    EmptyClass(le, u[0], v);
    assert u[0] in u;
  }

  /** A sorted sequence is determined by its classes. */
  lemma {:induction false} ClassesDetermineSorted<T(!new)>(le: (T, T) -> bool, u: seq<T>, v: seq<T>)
    requires Preorder(le) && Sorted(le, u) && Sorted(le, v)
    requires SameClasses(le, u, v)
    ensures u == v
  {
    if u != [] { SameClassesNonempty(le, u, v); }
    if v != [] { SameClassesNonempty(le, v, u); }
    if u != [] {
      ClassMembers(le, u[0], u); ClassMembers(le, u[0], v);
      ClassMembers(le, v[0], u); ClassMembers(le, v[0], v);
      assert u[0] in u && v[0] in v;
      assert le(u[0], v[0]) && le(v[0], u[0]);
      assert Class(le, u[0], u)[0] == u[0];
      assert Class(le, u[0], v)[0] == v[0];
      forall k ensures Class(le, k, u[1..]) == Class(le, k, v[1..]) {
        var head := if le(u[0], k) && le(k, u[0]) then [u[0]] else [];
        assert Class(le, k, u) == head + Class(le, k, u[1..]);
        assert Class(le, k, v) == head + Class(le, k, v[1..]);
        assert Class(le, k, u[1..]) == Class(le, k, u)[|head|..];
        assert Class(le, k, v[1..]) == Class(le, k, v)[|head|..];
      }
      ClassesDetermineSorted(le, u[1..], v[1..]);
      assert u == [u[0]] + u[1..] && v == [v[0]] + v[1..];
    }
  }

  /** Two inputs sort alike exactly when they agree on every class of equal elements. */
  lemma SortEqualIff<T(!new)>(le: (T, T) -> bool, s: seq<T>, t: seq<T>)
    requires Preorder(le)
    ensures Sort(le, s) == Sort(le, t) <==> SameClasses(le, s, t)
  {
    if Sort(le, s) == Sort(le, t) {
      forall k ensures Class(le, k, s) == Class(le, k, t) {
        SortKeepsClasses(le, k, s);
        SortKeepsClasses(le, k, t);
      }
    } else if SameClasses(le, s, t) {
      forall k ensures Class(le, k, Sort(le, s)) == Class(le, k, Sort(le, t)) {
        SortKeepsClasses(le, k, s);
        SortKeepsClasses(le, k, t);
      }
      SortSorted(le, s);
      SortSorted(le, t);
      ClassesDetermineSorted(le, Sort(le, s), Sort(le, t));
    }
  }

  /** A sequence already in order is left alone. */
  lemma SortedIsFixed<T(!new)>(le: (T, T) -> bool, s: seq<T>)
    requires Preorder(le) && Sorted(le, s)
    ensures Sort(le, s) == s
  {
    SortSorted(le, s);
    forall k ensures Class(le, k, Sort(le, s)) == Class(le, k, s) {
      SortKeepsClasses(le, k, s);
    }
    ClassesDetermineSorted(le, Sort(le, s), s);
  }

  lemma ClassCons<T(!new)>(le: (T, T) -> bool, k: T, x: T, s: seq<T>)
    ensures Class(le, k, [x] + s) == (if le(x, k) && le(k, x) then [x] else []) + Class(le, k, s)
  {
    assert ([x] + s)[1..] == s;
  }

  lemma {:induction false} ClassAppend<T(!new)>(le: (T, T) -> bool, k: T, a: seq<T>, b: seq<T>)
    ensures Class(le, k, a + b) == Class(le, k, a) + Class(le, k, b)
  {
    if a == [] {
      assert a + b == b;
    } else {
      assert a == [a[0]] + a[1..] && a + b == [a[0]] + (a[1..] + b);
      ClassCons(le, k, a[0], a[1..] + b);
      ClassCons(le, k, a[0], a[1..]);
      ClassAppend(le, k, a[1..], b);
    }
  }

  /** An element that nothing exceeds, appended last, comes out last. */
  lemma SortAppendLargest<T(!new)>(le: (T, T) -> bool, s: seq<T>, x: T)
    requires Preorder(le) && forall y :: y in s ==> le(y, x)
    ensures Sort(le, s + [x]) == Sort(le, s) + [x]
  {
    SortSorted(le, s);
    SortPermutes(le, s);
    SortSorted(le, s + [x]);
    forall k ensures Class(le, k, Sort(le, s + [x])) == Class(le, k, Sort(le, s) + [x]) {
      SortKeepsClasses(le, k, s + [x]);
      SortKeepsClasses(le, k, s);
      ClassAppend(le, k, s, [x]);
      ClassAppend(le, k, Sort(le, s), [x]);
    }
    ClassesDetermineSorted(le, Sort(le, s + [x]), Sort(le, s) + [x]);
  }

  /** In `s`, elements that compare equal are equal. */
  ghost predicate KeysSeparate<T>(le: (T, T) -> bool, s: seq<T>) {
    forall x, y :: x in s && y in s && le(x, y) && le(y, x) ==> x == y
  }

  lemma {:induction false} ClassIsRepetition<T(!new)>(le: (T, T) -> bool, k: T, s: seq<T>)
    requires forall x :: x in s && le(x, k) && le(k, x) ==> x == k
    requires le(k, k)
    ensures |Class(le, k, s)| == multiset(s)[k]
    ensures forall i :: 0 <= i < |Class(le, k, s)| ==> Class(le, k, s)[i] == k
  {
    if s != [] {
      var x, rest := s[0], s[1..];
      assert s == [x] + rest;
      ClassCons(le, k, x, rest);
      ClassIsRepetition(le, k, rest);
      assert le(x, k) && le(k, x) <==> x == k;
    }
  }

  /** Order of the input is invisible when no two different elements compare equal. */
  lemma PermutationsSortAlike<T(!new)>(le: (T, T) -> bool, s: seq<T>, t: seq<T>)
    requires Preorder(le) && KeysSeparate(le, s)
    requires multiset(s) == multiset(t)
    ensures Sort(le, s) == Sort(le, t)
  {
    forall x ensures x in s <==> x in t {
      assert x in s <==> x in multiset(s);
    }
    forall k ensures Class(le, k, s) == Class(le, k, t) {
      ClassMembers(le, k, s);
      ClassMembers(le, k, t);
      if x :| x in s && le(x, k) && le(k, x) {
        ClassIsRepetition(le, x, s);
        ClassIsRepetition(le, x, t);
        ClassCongruent(le, x, k, s);
        ClassCongruent(le, x, k, t);
      } else {
        EmptyClass(le, k, s);
        EmptyClass(le, k, t);
      }
    }
    SortEqualIff(le, s, t);
  }

  lemma {:induction false} ClassCongruent<T(!new)>(le: (T, T) -> bool, x: T, k: T, s: seq<T>)
    requires Preorder(le) && le(x, k) && le(k, x)
    ensures Class(le, x, s) == Class(le, k, s)
  {
    if s != [] { ClassCongruent(le, x, k, s[1..]); }
  }

  /** Comparing by a key. */
  function Keyed<T, K>(le: (K, K) -> bool, key: T -> K): (T, T) -> bool {
    (x: T, y: T) => le(key(x), key(y))
  }

  lemma KeyedIsPreorder<T(!new), K(!new)>(le: (K, K) -> bool, key: T -> K)
    requires Preorder(le)
    ensures Preorder(Keyed(le, key))
  {
    forall x, y ensures Keyed(le, key)(x, y) || Keyed(le, key)(y, x) {
      assert le(key(x), key(y)) || le(key(y), key(x));
    }
    forall x, y, z | Keyed(le, key)(x, y) && Keyed(le, key)(y, z) ensures Keyed(le, key)(x, z) {
      assert le(key(x), key(y)) && le(key(y), key(z));
    }
  }

  /** Sorting by a key commutes with taking the keys. */
  lemma {:induction false} KeysOfSort<T, K>(le: (K, K) -> bool, key: T -> K, s: seq<T>)
    ensures Map(key, Sort(Keyed(le, key), s)) == Sort(le, Map(key, s))
  {
    if s != [] {
      KeysOfSort(le, key, s[1..]);
      KeysOfInsert(le, key, s[0], Sort(Keyed(le, key), s[1..]));
      assert Map(key, s)[1..] == Map(key, s[1..]);
    }
  }

  lemma {:induction false} KeysOfInsert<T, K>(le: (K, K) -> bool, key: T -> K, x: T, s: seq<T>)
    ensures Map(key, Insert(Keyed(le, key), x, s)) == Insert(le, key(x), Map(key, s))
  {
    if !(s == [] || le(key(x), key(s[0]))) {
      KeysOfInsert(le, key, x, s[1..]);
      assert Map(key, s)[1..] == Map(key, s[1..]);
    }
  }

  lemma MultisetWithout<T>(t: seq<T>, k: int)
    requires 0 <= k < |t|
    ensures multiset(t) == multiset(t[..k] + t[k + 1..]) + multiset{t[k]}
  {
    assert t == t[..k] + ([t[k]] + t[k + 1..]);
  }

  lemma MapWithout<T, U>(f: T -> U, t: seq<T>, k: int)
    requires 0 <= k < |t|
    ensures multiset(Map(f, t)) == multiset(Map(f, t[..k] + t[k + 1..])) + multiset{f(t[k])}
  {
    var n := Map(f, t);
    assert n[..k] + n[k + 1..] == Map(f, t[..k] + t[k + 1..]);
    MultisetWithout(n, k);
  }

  lemma MultisetRemove<T>(m: multiset<T>, n: multiset<T>, x: T)
    requires m + multiset{x} == n + multiset{x}
    ensures m == n
  {
    assert m == (m + multiset{x}) - multiset{x};
    assert n == (n + multiset{x}) - multiset{x};
  }

  lemma OneLess<T>(s: seq<T>, t: seq<T>, k: int)
    requires multiset(s) == multiset(t) && s != [] && 0 <= k < |t| && t[k] == s[0]
    ensures multiset(s[..0] + s[1..]) == multiset(t[..k] + t[k + 1..])
  {
    MultisetWithout(s, 0);
    MultisetWithout(t, k);
    MultisetRemove(multiset(s[..0] + s[1..]), multiset(t[..k] + t[k + 1..]), s[0]);
  }

  /** Mapping keeps permutations. */
  lemma {:induction false} MapPermutes<T, U>(f: T -> U, s: seq<T>, t: seq<T>)
    requires multiset(s) == multiset(t)
    ensures multiset(Map(f, s)) == multiset(Map(f, t))
  {
    if s == [] {
      assert |multiset(t)| == 0;
    } else {
      assert s[0] in multiset(t);
      var k :| 0 <= k < |t| && t[k] == s[0];
      OneLess(s, t, k);
      MapPermutes(f, s[..0] + s[1..], t[..k] + t[k + 1..]);
      MapWithout(f, s, 0);
      MapWithout(f, t, k);
    }
  }

  lemma MiddleOut<T>(x: seq<T>, y: seq<T>, z: seq<T>)
    ensures multiset(x + (y + z)) == multiset(x + z) + multiset(y)
  {
  }

  lemma FlatMapWithout<T, U>(f: T -> seq<U>, t: seq<T>, k: int)
    requires 0 <= k < |t|
    ensures multiset(FlatMap(f, t)) == multiset(FlatMap(f, t[..k] + t[k + 1..])) + multiset(f(t[k]))
  {
    var a, b := t[..k], t[k + 1..];
    assert t == a + ([t[k]] + b);
    FlatMapAppend(f, a, [t[k]] + b);
    FlatMapAppend(f, [t[k]], b);
    FlatMapOne(f, t[k]);
    FlatMapAppend(f, a, b);
    MiddleOut(FlatMap(f, a), f(t[k]), FlatMap(f, b));
  }

  lemma {:induction false} FlatMapPermutes<T, U>(f: T -> seq<U>, s: seq<T>, t: seq<T>)
    requires multiset(s) == multiset(t)
    ensures multiset(FlatMap(f, s)) == multiset(FlatMap(f, t))
  {
    if s == [] {
      assert |multiset(t)| == 0;
    } else {
      assert s[0] in multiset(t);
      var k :| 0 <= k < |t| && t[k] == s[0];
      OneLess(s, t, k);
      FlatMapPermutes(f, s[..0] + s[1..], t[..k] + t[k + 1..]);
      FlatMapWithout(f, s, 0);
      FlatMapWithout(f, t, k);
    }
  }
}
