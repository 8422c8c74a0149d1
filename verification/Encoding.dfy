/** Numerals and digest preimages: what the readiness fingerprint, the snapshot id and the rule
    signature feed to SHA-256, and that nothing is lost on the way. SHA-256 itself is a
    parameter; where a proof needs it to be injective, it says so. */
module Encoding {
  import opened Basics

  type Byte = x: int | 0 <= x < 256
  type Bytes = seq<Byte>

  // ---- Numerals --------------------------------------------------------------------

  /** The digits of `n` in base `b`, most significant first (`str(n)`, `f"{n:o}"`). */
  function Numeral(n: nat, b: nat): (s: string)
    requires b == 8 || b == 10
    ensures s != []
  {
    if n < b then [Digit(n)] else Numeral(n / b, b) + [Digit(n % b)]
  }

  function Digit(d: nat): char
    requires d < 10
  {
    '0' + d as char
  }

  function NumeralValue(s: string, b: nat): int {
    if s == [] then 0
    else NumeralValue(s[..|s| - 1], b) * b + (s[|s| - 1] as int - '0' as int)
  }

  lemma {:induction false} NumeralRoundTrip(n: nat, b: nat)
    requires b == 8 || b == 10
    ensures NumeralValue(Numeral(n, b), b) == n
  {
    if n < b {
      NumeralValueAppend([], n, b);
      assert [] + [Digit(n)] == [Digit(n)];
    } else {
      NumeralRoundTrip(n / b, b);
      LastDigit(Numeral(n / b, b), n, b);
    }
  }

  lemma LastDigit(s: string, n: nat, b: nat)
    requires (b == 8 || b == 10) && NumeralValue(s, b) == n / b
    ensures NumeralValue(s + [Digit(n % b)], b) == n
  {
    NumeralValueAppend(s, n % b, b);
    if b == 8 {
      assert (n / 8) * 8 + n % 8 == n;
    } else {
      assert (n / 10) * 10 + n % 10 == n;
    }
  }

  lemma NumeralValueAppend(s: string, d: nat, b: nat)
    requires d < 10
    ensures NumeralValue(s + [Digit(d)], b) == NumeralValue(s, b) * b + d
  {
    assert (s + [Digit(d)])[..|s|] == s;
  }

  lemma NumeralInjective(m: nat, n: nat, b: nat)
    requires (b == 8 || b == 10) && Numeral(m, b) == Numeral(n, b)
    ensures m == n
  {
    NumeralRoundTrip(m, b);
    NumeralRoundTrip(n, b);
  }

  // ---- Big-endian lengths ---------------------------------------------------------------

  function Pow256(k: nat): nat {
    if k == 0 then 1 else 256 * Pow256(k - 1)
  }

  /** `n.to_bytes(k)`, for an `n` that fits. */
  function BigEndian(n: nat, k: nat): (s: Bytes)
    ensures |s| == k
  {
    if k == 0 then [] else BigEndian(n / 256, k - 1) + [n % 256]
  }

  function BigEndianValue(s: Bytes): int {
    if s == [] then 0 else BigEndianValue(s[..|s| - 1]) * 256 + s[|s| - 1]
  }

  lemma {:induction false} BigEndianRoundTrip(n: nat, k: nat)
    requires n < Pow256(k)
    ensures BigEndianValue(BigEndian(n, k)) == n
  {
    if k > 0 {
      BigEndianRoundTrip(n / 256, k - 1);
      var s := BigEndian(n, k);
      assert s[..k - 1] == BigEndian(n / 256, k - 1);
    }
  }

  const LENGTH_LIMIT: nat := 0x1_0000_0000_0000_0000

  function Length(n: nat): (s: Bytes)
    ensures |s| == 8
  {
    BigEndian(n, 8)
  }

  lemma LengthInjective(m: nat, n: nat)
    requires m < LENGTH_LIMIT && n < LENGTH_LIMIT && Length(m) == Length(n)
    ensures m == n
  {
    assert Pow256(8) == LENGTH_LIMIT by {
      assert Pow256(2) == 0x1_0000;
      assert Pow256(4) == 0x1_0000_0000;
      assert Pow256(6) == 0x1_0000_0000_0000;
    }
    BigEndianRoundTrip(m, 8);
    BigEndianRoundTrip(n, 8);
  }

  // ---- Labelled fields: the fingerprint ------------------------------------------------------

  datatype Field = Field(tag: Bytes, payload: Bytes)

  function Frame(f: Field): Bytes {
    Length(|f.tag|) + f.tag + Length(|f.payload|) + f.payload
  }

  function Framed(fields: seq<Field>): Bytes {
    if fields == [] then [] else Frame(fields[0]) + Framed(fields[1..])
  }

  ghost predicate Fits(fields: seq<Field>) {
    forall i :: 0 <= i < |fields| ==> |fields[i].tag| < LENGTH_LIMIT && |fields[i].payload| < LENGTH_LIMIT
  }

  /** A length-prefixed string followed by anything determines the string and the rest. */
  lemma PrefixedSplits(a: Bytes, restA: Bytes, b: Bytes, restB: Bytes)
    requires |a| < LENGTH_LIMIT && |b| < LENGTH_LIMIT
    requires Length(|a|) + a + restA == Length(|b|) + b + restB
    ensures a == b && restA == restB
  {
    var x, y := Length(|a|) + a + restA, Length(|b|) + b + restB;
    assert x[..8] == Length(|a|) && y[..8] == Length(|b|);
    LengthInjective(|a|, |b|);
    assert x[8..8 + |a|] == a && y[8..8 + |b|] == b;
    assert x[8 + |a|..] == restA && y[8 + |b|..] == restB;
  }

  lemma FrameThen(f: Field, rest: Bytes)
    ensures Frame(f) + rest == Length(|f.tag|) + f.tag + (Length(|f.payload|) + f.payload + rest)
  {
  }

  lemma FrameSplits(a: Field, restA: Bytes, b: Field, restB: Bytes)
    requires |a.tag| < LENGTH_LIMIT && |a.payload| < LENGTH_LIMIT
    requires |b.tag| < LENGTH_LIMIT && |b.payload| < LENGTH_LIMIT
    requires Frame(a) + restA == Frame(b) + restB
    ensures a == b && restA == restB
  {
    FrameThen(a, restA);
    FrameThen(b, restB);
    PrefixedSplits(a.tag, Length(|a.payload|) + a.payload + restA, b.tag, Length(|b.payload|) + b.payload + restB);
    PrefixedSplits(a.payload, restA, b.payload, restB);
  }

  /** Equal fingerprint input means equal labels and payloads, one by one. */
  lemma {:induction false} FramedInjective(s: seq<Field>, t: seq<Field>)
    requires Fits(s) && Fits(t) && Framed(s) == Framed(t)
    ensures s == t
  {
    if s == [] || t == [] {
      assert s == [] <==> |Framed(s)| == 0;
      assert t == [] <==> |Framed(t)| == 0;
    } else {
      FrameSplits(s[0], Framed(s[1..]), t[0], Framed(t[1..]));
      FramedInjective(s[1..], t[1..]);
      assert s == [s[0]] + s[1..] && t == [t[0]] + t[1..];
    }
  }

  /** What SHA-256 has been fed so far. */
  class Hasher {
    var fed: Bytes

    constructor ()
      ensures fed == []
    {
      fed := [];
    }

    method Update(data: Bytes)
      modifies this
      ensures fed == old(fed) + data
    {
      fed := fed + data;
    }

    /** False: a length does not fit into eight bytes and Python raises. */
    method FingerprintInput(f: Field) returns (ok: bool)
      modifies this
      ensures ok <==> |f.tag| < LENGTH_LIMIT && |f.payload| < LENGTH_LIMIT
      ensures ok ==> fed == old(fed) + Frame(f)
    {
      if |f.tag| >= LENGTH_LIMIT { return false; }
      Update(Length(|f.tag|));
      Update(f.tag);
      if |f.payload| >= LENGTH_LIMIT { return false; }
      Update(Length(|f.payload|));
      Update(f.payload);
      return true;
    }
  }

  lemma {:induction false} FramedSnoc(fields: seq<Field>, f: Field)
    ensures Framed(fields + [f]) == Framed(fields) + Frame(f)
  {
    if fields == [] {
      assert fields + [f] == [f] && [f][1..] == [];
    } else {
      FramedSnoc(fields[1..], f);
      assert (fields + [f])[1..] == fields[1..] + [f];
    }
  }

  /** Feed all fields in order; None when a length does not fit. */
  method FramedInput(fields: seq<Field>) returns (r: Option<Bytes>)
    ensures r.Some? <==> Fits(fields)
    ensures r.Some? ==> r.value == Framed(fields)
  {
    var h := new Hasher();
    for i := 0 to |fields|
      invariant fresh(h) && h.fed == Framed(fields[..i])
      invariant forall k :: 0 <= k < i ==> |fields[k].tag| < LENGTH_LIMIT && |fields[k].payload| < LENGTH_LIMIT
    {
      var ok := h.FingerprintInput(fields[i]);
      if !ok { return None; }
      FramedSnoc(fields[..i], fields[i]);
      assert fields[..i + 1] == fields[..i] + [fields[i]];
    }
    assert fields[..|fields|] == fields;
    r := Some(h.fed);
  }

  // ---- NUL-terminated pairs: the snapshot id ----------------------------------------------------

  /** A file of the snapshot: its path and the text of its content hash. */
  datatype Item = Item(path: Bytes, text: Bytes)

  function Terminated(items: seq<Item>): Bytes {
    if items == [] then []
    else items[0].path + [0] + items[0].text + [0] + Terminated(items[1..])
  }

  ghost predicate NulFree(items: seq<Item>) {
    forall i :: 0 <= i < |items| ==> 0 !in items[i].path && 0 !in items[i].text
  }

  lemma {:induction false} TerminatorSplits(a: Bytes, restA: Bytes, b: Bytes, restB: Bytes)
    requires 0 !in a && 0 !in b
    requires a + [0] + restA == b + [0] + restB
    ensures a == b && restA == restB
  {
    var x, y := a + [0] + restA, b + [0] + restB;
    if a == [] || b == [] {
      assert x[0] == y[0];
      assert a == [] && b == [];
      assert x[1..] == restA && y[1..] == restB;
    } else {
      assert a[0] == x[0] == y[0] == b[0];
      assert x[1..] == a[1..] + [0] + restA && y[1..] == b[1..] + [0] + restB;
      TerminatorSplits(a[1..], restA, b[1..], restB);
      assert a == [a[0]] + a[1..] && b == [b[0]] + b[1..];
    }
  }

  /** Equal snapshot input means equal paths and hashes, one by one. */
  lemma {:induction false} TerminatedInjective(s: seq<Item>, t: seq<Item>)
    requires NulFree(s) && NulFree(t) && Terminated(s) == Terminated(t)
    ensures s == t
  {
    if s == [] || t == [] {
      assert s == [] <==> Terminated(s) == [];
      assert t == [] <==> Terminated(t) == [];
    } else {
      var a, b := s[0], t[0];
      assert Terminated(s) == a.path + [0] + (a.text + [0] + Terminated(s[1..]));
      assert Terminated(t) == b.path + [0] + (b.text + [0] + Terminated(t[1..]));
      TerminatorSplits(a.path, a.text + [0] + Terminated(s[1..]), b.path, b.text + [0] + Terminated(t[1..]));
      TerminatorSplits(a.text, Terminated(s[1..]), b.text, Terminated(t[1..]));
      TerminatedInjective(s[1..], t[1..]);
      assert s == [a] + s[1..] && t == [b] + t[1..];
    }
  }

  function Terminal(x: Item): Bytes {
    x.path + [0] + x.text + [0]
  }

  lemma {:induction false} TerminatedSnoc(items: seq<Item>, x: Item)
    ensures Terminated(items + [x]) == Terminated(items) + Terminal(x)
  {
    if items == [] {
      assert items + [x] == [x] && [x][1..] == [];
      assert Terminated([x]) == Terminal(x) + Terminated([]);
    } else {
      TerminatedSnoc(items[1..], x);
      assert (items + [x])[0] == items[0] && (items + [x])[1..] == items[1..] + [x];
      assert Terminated(items + [x]) == Terminal(items[0]) + (Terminated(items[1..]) + Terminal(x));
      assert Terminated(items) == Terminal(items[0]) + Terminated(items[1..]);
    }
  }

  method SnapshotInput(items: seq<Item>) returns (fed: Bytes)
    ensures fed == Terminated(items)
  {
    var h := new Hasher();
    for i := 0 to |items|
      invariant fresh(h) && h.fed == Terminated(items[..i])
    {
      TerminatedSnoc(items[..i], items[i]);
      assert items[..i + 1] == items[..i] + [items[i]];
      h.Update(items[i].path);
      h.Update([0]);
      h.Update(items[i].text);
      h.Update([0]);
    }
    assert items[..|items|] == items;
    fed := h.fed;
  }

  // ---- NUL-joined keys: the rule signature ------------------------------------------------------

  function Joined(keys: seq<string>): string {
    if keys == [] then ""
    else if |keys| == 1 then keys[0]
    else keys[0] + [NUL] + Joined(keys[1..])
  }

  const NUL: char := '\0'

  /** A rule's module and qualified name: never empty, and without NUL. */
  ghost predicate KeyLike(keys: seq<string>) {
    forall i :: 0 <= i < |keys| ==> keys[i] != "" && NUL !in keys[i]
  }

  lemma {:induction false} SeparatorSplits(a: string, restA: string, b: string, restB: string)
    requires NUL !in a && NUL !in b
    requires a + [NUL] + restA == b + [NUL] + restB
    ensures a == b && restA == restB
  {
    var x, y := a + [NUL] + restA, b + [NUL] + restB;
    if a == [] || b == [] {
      assert x[0] == y[0];
      assert a == [] && b == [];
      assert x[1..] == restA && y[1..] == restB;
    } else {
      assert a[0] == x[0] == y[0] == b[0];
      assert x[1..] == a[1..] + [NUL] + restA && y[1..] == b[1..] + [NUL] + restB;
      SeparatorSplits(a[1..], restA, b[1..], restB);
      assert a == [a[0]] + a[1..] && b == [b[0]] + b[1..];
    }
  }

  lemma {:induction false} JoinedHasSeparator(keys: seq<string>)
    requires KeyLike(keys)
    ensures NUL in Joined(keys) <==> |keys| >= 2
    ensures Joined(keys) == "" <==> keys == []
  {
    if |keys| >= 2 {
      assert Joined(keys)[|keys[0]|] == NUL;
    }
  }

  lemma {:induction false} JoinedInjective(s: seq<string>, t: seq<string>)
    requires KeyLike(s) && KeyLike(t) && Joined(s) == Joined(t)
    ensures s == t
  {
    JoinedHasSeparator(s);
    JoinedHasSeparator(t);
    if |s| >= 2 {
      SeparatorSplits(s[0], Joined(s[1..]), t[0], Joined(t[1..]));
      JoinedInjective(s[1..], t[1..]);
      assert s == [s[0]] + s[1..] && t == [t[0]] + t[1..];
    }
  }
}
