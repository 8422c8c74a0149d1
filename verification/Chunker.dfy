/** The Markdown chunker: tiling a file at its headings, breadcrumbs from a stack, and anchors
    that stay distinct. Lines are given by their UTF-8 bytes, headings by the parser. */
module Chunker {
  import opened Basics
  import opened Encoding

  datatype Heading = Heading(level: int, text: string, line: int)

  datatype Chunk = Chunk(anchor: string, breadcrumb: seq<string>, body: Bytes,
                         lineStart: int, lineEnd: int, byteStart: int, byteEnd: int)

  // ---- Bytes and lines -----------------------------------------------------------------------

  function Flatten(lines: seq<Bytes>): Bytes {
    if lines == [] then [] else lines[0] + Flatten(lines[1..])
  }

  lemma {:induction false} FlattenAppend(a: seq<Bytes>, b: seq<Bytes>)
    ensures Flatten(a + b) == Flatten(a) + Flatten(b)
  {
    if a == [] {
      assert a + b == b;
    } else {
      assert (a + b)[1..] == a[1..] + b;
      FlattenAppend(a[1..], b);
    }
  }

  /** Where line `k` (from 0) starts; `k == |lines|` is just past the end. */
  function Offset(lines: seq<Bytes>, k: int): int
    requires 0 <= k <= |lines|
  {
    |Flatten(lines[..k])|
  }

  lemma OffsetSlices(lines: seq<Bytes>, i: int, j: int)
    requires 0 <= i <= j <= |lines|
    ensures 0 <= Offset(lines, i) <= Offset(lines, j) <= |Flatten(lines)|
    ensures Flatten(lines)[Offset(lines, i)..Offset(lines, j)] == Flatten(lines[i..j])
  {
    assert lines == lines[..j] + lines[j..] && lines[..j] == lines[..i] + lines[i..j];
    FlattenAppend(lines[..j], lines[j..]);
    FlattenAppend(lines[..i], lines[i..j]);
  }

  /** Entry `k` is the number of bytes before line `k`; the last one is the length of the file. */
  ghost predicate OffsetsOf(lines: seq<Bytes>, offsets: seq<int>) {
    |offsets| == |lines| + 1 && forall k :: 0 <= k <= |lines| ==> offsets[k] == Offset(lines, k)
  }

  method LineByteOffsets(lines: seq<Bytes>) returns (offsets: seq<int>)
    ensures OffsetsOf(lines, offsets)
  {
    offsets := [0];
    var cum := 0;
    for i := 0 to |lines|
      invariant cum == Offset(lines, i) && |offsets| == i + 1
      invariant forall k :: 0 <= k <= i ==> offsets[k] == Offset(lines, k)
    {
      assert lines[..i + 1] == lines[..i] + [lines[i]];
      FlattenAppend(lines[..i], [lines[i]]);
      assert Flatten([lines[i]]) == lines[i];
      cum := cum + |lines[i]|;
      offsets := offsets + [cum];
    }
  }

  // ---- Breadcrumbs -----------------------------------------------------------------------------

  datatype Crumb = Crumb(level: int, text: string)

  /** Heading `j` encloses the end of `hs`: every heading after it is deeper. */
  ghost predicate Encloses(hs: seq<Heading>, j: int)
    requires 0 <= j < |hs|
  {
    forall k :: j < k < |hs| ==> hs[k].level > hs[j].level
  }

  /** The headings before `n` that enclose the end of `hs`, outermost first. */
  ghost function Enclosing(hs: seq<Heading>, n: int): seq<Crumb>
    requires 0 <= n <= |hs|
  {
    if n == 0 then []
    else Enclosing(hs, n - 1)
         + if Encloses(hs, n - 1) then [Crumb(hs[n - 1].level, hs[n - 1].text)] else []
  }

  /** The breadcrumb of the last heading: the texts of the earlier headings that enclose it. */
  ghost function Ancestors(hs: seq<Heading>): seq<string>
    requires hs != []
  {
    Texts(Enclosing(hs, |hs| - 1))
  }

  function Texts(stack: seq<Crumb>): seq<string> {
    if stack == [] then [] else [stack[0].text] + Texts(stack[1..])
  }

  ghost predicate Deepening(stack: seq<Crumb>) {
    forall i, j :: 0 <= i < j < |stack| ==> stack[i].level < stack[j].level
  }

  function Pushed(stack: seq<Crumb>, h: Heading): seq<Crumb> {
    if stack != [] && stack[|stack| - 1].level >= h.level then Pushed(stack[..|stack| - 1], h)
    else stack + [Crumb(h.level, h.text)]
  }

  /** The entries above `level`, as they stand. */
  function Shallower(stack: seq<Crumb>, level: int): seq<Crumb> {
    if stack == [] then []
    else Shallower(stack[..|stack| - 1], level)
         + if stack[|stack| - 1].level < level then [stack[|stack| - 1]] else []
  }

  lemma {:induction false} ShallowerAll(stack: seq<Crumb>, level: int)
    requires forall i :: 0 <= i < |stack| ==> stack[i].level < level
    ensures Shallower(stack, level) == stack
  {
    if stack != [] {
      ShallowerAll(stack[..|stack| - 1], level);
      assert stack == stack[..|stack| - 1] + [stack[|stack| - 1]];
    }
  }

  lemma ShallowerAppend(stack: seq<Crumb>, c: Crumb, level: int)
    ensures Shallower(stack + [c], level) == Shallower(stack, level) + if c.level < level then [c] else []
  {
    assert (stack + [c])[..|stack|] == stack;
  }

  lemma {:induction false} ShallowerDeepens(stack: seq<Crumb>, level: int)
    requires Deepening(stack)
    ensures Deepening(Shallower(stack, level))
    ensures forall i :: 0 <= i < |Shallower(stack, level)| ==>
              Shallower(stack, level)[i] in stack && Shallower(stack, level)[i].level < level
  {
    if stack != [] {
      var n := |stack| - 1;
      var rest := Shallower(stack[..n], level);
      ShallowerDeepens(stack[..n], level);
      forall i | 0 <= i < |rest| ensures rest[i] in stack && rest[i].level < level && rest[i].level < stack[n].level {
        assert rest[i] in stack[..n];
      }
    }
  }

  /** Popping from the top removes everything that is not shallower, because levels increase. */
  lemma {:induction false} PushedKeepsShallower(stack: seq<Crumb>, h: Heading)
    requires Deepening(stack)
    ensures Pushed(stack, h) == Shallower(stack, h.level) + [Crumb(h.level, h.text)]
  {
    if stack != [] {
      var n := |stack| - 1;
      if stack[n].level >= h.level {
        PushedKeepsShallower(stack[..n], h);
      } else {
        ShallowerAll(stack, h.level);
      }
    }
  }

  /** One more heading: those at least as deep stop enclosing, and it encloses itself. */
  lemma {:induction false} EnclosingAfter(hs: seq<Heading>, h: Heading, n: int)
    requires 0 <= n <= |hs|
    ensures Enclosing(hs + [h], n) == Shallower(Enclosing(hs, n), h.level)
  {
    if n > 0 {
      EnclosingAfter(hs, h, n - 1);
      if Encloses(hs, n - 1) {
        ShallowerAppend(Enclosing(hs, n - 1), Crumb(hs[n - 1].level, hs[n - 1].text), h.level);
      } else {
        assert Enclosing(hs, n) == Enclosing(hs, n - 1);
      }
      assert (hs + [h])[n - 1] == hs[n - 1];
      assert Encloses(hs + [h], n - 1) <==> Encloses(hs, n - 1) && hs[n - 1].level < h.level by {
        assert forall k :: n - 1 < k < |hs| ==> (hs + [h])[k] == hs[k];
        assert (hs + [h])[|hs|] == h;
        if Encloses(hs + [h], n - 1) {
          forall k | n - 1 < k < |hs| ensures hs[k].level > hs[n - 1].level {
            assert (hs + [h])[k] == hs[k];
          }
        }
      }
    }
  }

  function Observed(hs: seq<Heading>): seq<Crumb> {
    if hs == [] then [] else Pushed(Observed(hs[..|hs| - 1]), hs[|hs| - 1])
  }

  function Own(h: Heading): Crumb {
    Crumb(h.level, h.text)
  }

  lemma EnclosingLast(front: seq<Heading>, h: Heading)
    ensures Enclosing(front + [h], |front| + 1) == Enclosing(front + [h], |front|) + [Own(h)]
  {
    assert (front + [h])[|front|] == h;
  }

  lemma PushedDeepens(stack: seq<Crumb>, h: Heading)
    requires Deepening(stack)
    ensures Deepening(Pushed(stack, h))
  {
    PushedKeepsShallower(stack, h);
    ShallowerDeepens(stack, h.level);
  }

  lemma StackStep(front: seq<Heading>, h: Heading)
    requires Observed(front) == Enclosing(front, |front|) && Deepening(Observed(front))
    ensures Observed(front + [h]) == Enclosing(front + [h], |front|) + [Own(h)]
    ensures Deepening(Observed(front + [h]))
  {
    assert (front + [h])[..|front|] == front;
    assert Observed(front + [h]) == Pushed(Observed(front), h);
    PushedKeepsShallower(Observed(front), h);
    EnclosingAfter(front, h, |front|);
    PushedDeepens(Observed(front), h);
  }

  /** After any headings, the stack holds exactly those that enclose what comes next, and its
      levels strictly increase. */
  lemma {:induction false} StackIsEnclosing(hs: seq<Heading>)
    ensures Observed(hs) == Enclosing(hs, |hs|) && Deepening(Observed(hs))
  {
    if hs != [] {
      var front, h := hs[..|hs| - 1], hs[|hs| - 1];
      assert hs == front + [h];
      StackIsEnclosing(front);
      StackStep(front, h);
      EnclosingLast(front, h);
    }
  }

  /** The entries above a heading's own level are its ancestors. */
  lemma ShallowerIsAncestors(hs: seq<Heading>)
    requires hs != []
    ensures Texts(Shallower(Observed(hs), hs[|hs| - 1].level)) == Ancestors(hs)
  {
    var front, h := hs[..|hs| - 1], hs[|hs| - 1];
    assert hs == front + [h];
    StackIsEnclosing(front);
    StackStep(front, h);
    AboveOwn(Enclosing(hs, |front|), h);
  }

  lemma AboveOwn(above: seq<Crumb>, h: Heading)
    requires Deepening(above + [Own(h)])
    ensures Shallower(above + [Own(h)], h.level) == above
  {
    var all := above + [Own(h)];
    ShallowerAppend(above, Own(h), h.level);
    forall i | 0 <= i < |above| ensures above[i].level < h.level {
      assert above[i] == all[i] && all[|above|] == Own(h);
    }
    ShallowerAll(above, h.level);
  }

  lemma TextsAppend(stack: seq<Crumb>, c: Crumb)
    ensures Texts(stack + [c]) == Texts(stack) + [c.text]
  {
    if stack == [] {
      assert stack + [c] == [c];
    } else {
      assert (stack + [c])[1..] == stack[1..] + [c];
      TextsAppend(stack[1..], c);
    }
  }

  lemma NextCrumb(stack: seq<Crumb>, i: int, level: int)
    requires 0 <= i < |stack|
    ensures Texts(Shallower(stack[..i + 1], level))
            == Texts(Shallower(stack[..i], level)) + if stack[i].level < level then [stack[i].text] else []
  {
    assert stack[..i + 1] == stack[..i] + [stack[i]];
    ShallowerAppend(stack[..i], stack[i], level);
    if stack[i].level < level {
      TextsAppend(Shallower(stack[..i], level), stack[i]);
    } else {
      assert Shallower(stack[..i], level) + [] == Shallower(stack[..i], level);
    }
  }

  /** The entries above a level are what would enclose a heading of that level, if it came next. */
  lemma ShallowerEnclosesNext(hs: seq<Heading>, h: Heading)
    ensures Texts(Shallower(Observed(hs), h.level)) == Ancestors(hs + [h])
  {
    StackIsEnclosing(hs);
    EnclosingAfter(hs, h, |hs|);
  }

  method TextsAbove(stack: seq<Crumb>, level: int) returns (crumbs: seq<string>)
    ensures crumbs == Texts(Shallower(stack, level))
  {
    crumbs := [];
    for i := 0 to |stack|
      invariant crumbs == Texts(Shallower(stack[..i], level))
    {
      NextCrumb(stack, i, level);
      if stack[i].level < level {
        crumbs := crumbs + [stack[i].text];
      }
    }
    assert stack[..|stack|] == stack;
  }

  class BreadcrumbStack {
    var stack: seq<Crumb>
    /** The headings observed so far. */
    ghost var seen: seq<Heading>

    ghost predicate Valid()
      reads this
    {
      stack == Observed(seen)
    }

    constructor ()
      ensures Valid() && seen == []
    {
      stack := [];
      seen := [];
    }

    /** Afterwards the stack holds the headings that enclose what comes next, ever deeper. */
    method Observe(h: Heading)
      requires Valid()
      modifies this
      ensures Valid() && seen == old(seen) + [h]
      ensures stack == Enclosing(seen, |seen|) && Deepening(stack)
    {
      while stack != [] && stack[|stack| - 1].level >= h.level
        invariant Pushed(stack, h) == Pushed(old(stack), h) && seen == old(seen)
        decreases |stack|
      {
        stack := stack[..|stack| - 1];
      }
      stack := stack + [Crumb(h.level, h.text)];
      seen := seen + [h];
      assert seen[..|seen| - 1] == old(seen);
      StackIsEnclosing(seen);
    }

    /** The headings that enclose `h`, whether it is the last one observed or yet to come. */
    method AncestorsFor(h: Heading) returns (crumbs: seq<string>)
      requires Valid()
      ensures crumbs == Ancestors(seen + [h])
      ensures seen != [] && seen[|seen| - 1] == h ==> crumbs == Ancestors(seen)
    {
      crumbs := TextsAbove(stack, h.level);
      ShallowerEnclosesNext(seen, h);
      if seen != [] { ShallowerIsAncestors(seen); }
    }
  }

  // ---- Anchors ------------------------------------------------------------------------------------

  function Candidate(b: string, n: nat): string {
    b + "-" + Numeral(n, 10)
  }

  lemma CandidateInjective(b: string, m: nat, n: nat)
    requires Candidate(b, m) == Candidate(b, n)
    ensures m == n
  {
    assert Candidate(b, m)[|b| + 1..] == Numeral(m, 10) && Candidate(b, n)[|b| + 1..] == Numeral(n, 10);
    NumeralInjective(m, n, 10);
  }

  /** Taken candidates are different members of `seen`, so there are at most as many. */
  lemma {:induction false} TakenAreFew(b: string, n: nat, seen: set<string>)
    requires n >= 2 && forall k :: 2 <= k < n ==> Candidate(b, k) in seen
    ensures n - 2 <= |seen|
  {
    if n > 2 {
      var c := Candidate(b, n - 1);
      forall k | 2 <= k < n - 1 ensures Candidate(b, k) in seen - {c} {
        if Candidate(b, k) == c { CandidateInjective(b, k, n - 1); }
      }
      TakenAreFew(b, n - 1, seen - {c});
    }
  }

  /** What becomes of the base anchor `b` when `seen` are taken. */
  ghost predicate Disambiguates(b: string, seen: set<string>, anchor: string) {
    && anchor !in seen
    && (b !in seen ==> anchor == b)
    && (b in seen ==> exists n :: 2 <= n <= |seen| + 1 && anchor == Candidate(b, n)
                        && forall k :: 2 <= k < n ==> Candidate(b, k) in seen)
  }

  method DisambiguateAnchor(b: string, seen: set<string>) returns (anchor: string, seen': set<string>)
    ensures Disambiguates(b, seen, anchor) && seen' == seen + {anchor}
  {
    if b !in seen {
      return b, seen + {b};
    }
    var n := 2;
    while Candidate(b, n) in seen
      invariant n >= 2 && forall k :: 2 <= k < n ==> Candidate(b, k) in seen
      invariant n - 2 <= |seen|
      decreases |seen| + 2 - n
    {
      n := n + 1;
      TakenAreFew(b, n, seen);
    }
    forall k | 2 <= k < n ensures Candidate(b, k) in seen - {b} {
      assert |Candidate(b, k)| > |b|;
    }
    TakenAreFew(b, n, seen - {b});
    anchor := Candidate(b, n);
    seen' := seen + {anchor};
  }

  // ---- Tiling -----------------------------------------------------------------------------------------

  ghost predicate Increasing(hs: seq<Heading>) {
    forall i, j :: 0 <= i < j < |hs| ==> hs[i].line < hs[j].line
  }

  /** What the parser delivers: headings in the order of their lines, which exist. */
  ghost predicate FromParser(hs: seq<Heading>, totalLines: int) {
    Increasing(hs) && forall i :: 0 <= i < |hs| ==> 1 <= hs[i].line <= totalLines
  }

  function FirstLine(sps: seq<Heading>, i: int): int
    requires 0 <= i < |sps|
  {
    if i == 0 then 1 else sps[i].line
  }

  function LastLine(sps: seq<Heading>, i: int, totalLines: int): int
    requires 0 <= i < |sps|
  {
    var end := if i + 1 < |sps| then sps[i + 1].line - 1 else totalLines;
    if end >= FirstLine(sps, i) then end else FirstLine(sps, i)
  }

  /** Chunk `i` covers whole lines, and its body is the bytes of these lines. */
  ghost predicate Covers(c: Chunk, lines: seq<Bytes>, first: int, last: int) {
    && 1 <= first <= last <= |lines|
    && c.lineStart == first && c.lineEnd == last
    && c.byteStart == Offset(lines, first - 1) && c.byteEnd == Offset(lines, last)
    && c.body == Flatten(lines[first - 1..last])
  }

  /** The chunks cover the lines from the first to `end`, one after the other. */
  ghost predicate TilesTo(chunks: seq<Chunk>, lines: seq<Bytes>, end: int) {
    && chunks != []
    && (forall i :: 0 <= i < |chunks| ==> Covers(chunks[i], lines, chunks[i].lineStart, chunks[i].lineEnd))
    && chunks[0].lineStart == 1 && chunks[|chunks| - 1].lineEnd == end
    && forall i, j :: 0 <= i < j < |chunks| && j == i + 1 ==> chunks[j].lineStart == chunks[i].lineEnd + 1
  }

  ghost predicate Tiles(chunks: seq<Chunk>, lines: seq<Bytes>) {
    TilesTo(chunks, lines, |lines|)
  }

  function Bodies(chunks: seq<Chunk>): Bytes {
    if chunks == [] then [] else Bodies(chunks[..|chunks| - 1]) + chunks[|chunks| - 1].body
  }

  lemma LinesJoin(lines: seq<Bytes>, a: int, b: int)
    requires 0 <= a <= b <= |lines|
    ensures Flatten(lines[..b]) == Flatten(lines[..a]) + Flatten(lines[a..b])
  {
    assert lines[..b] == lines[..a] + lines[a..b];
    FlattenAppend(lines[..a], lines[a..b]);
  }

  lemma TilesBefore(chunks: seq<Chunk>, lines: seq<Bytes>, end: int)
    requires TilesTo(chunks, lines, end) && |chunks| > 1
    ensures TilesTo(chunks[..|chunks| - 1], lines, chunks[|chunks| - 1].lineStart - 1)
  {
    var n := |chunks| - 1;
    var front := chunks[..n];
    forall i | 0 <= i < |front| ensures Covers(front[i], lines, front[i].lineStart, front[i].lineEnd) {
      assert front[i] == chunks[i];
    }
    assert chunks[n].lineStart == chunks[n - 1].lineEnd + 1;
  }

  lemma {:induction false} BodiesUpTo(chunks: seq<Chunk>, lines: seq<Bytes>, end: int)
    requires TilesTo(chunks, lines, end)
    ensures 0 <= end <= |lines| && Bodies(chunks) == Flatten(lines[..end])
  {
    var n := |chunks| - 1;
    var c := chunks[n];
    assert Covers(c, lines, c.lineStart, c.lineEnd);
    LinesJoin(lines, c.lineStart - 1, c.lineEnd);
    if n == 0 {
      assert chunks[..0] == [] && lines[..0] == [];
    } else {
      TilesBefore(chunks, lines, end);
      BodiesUpTo(chunks[..n], lines, c.lineStart - 1);
    }
  }

  /** Putting the bodies of a tiling together gives the file back, and the byte ranges meet. */
  lemma TilingReassembles(chunks: seq<Chunk>, lines: seq<Bytes>)
    requires Tiles(chunks, lines)
    ensures Bodies(chunks) == Flatten(lines)
    ensures chunks[0].byteStart == 0 && chunks[|chunks| - 1].byteEnd == |Flatten(lines)|
    ensures forall i, j :: 0 <= i < j < |chunks| && j == i + 1 ==> chunks[j].byteStart == chunks[i].byteEnd
  {
    BodiesUpTo(chunks, lines, |lines|);
    assert lines[..|lines|] == lines;
    assert Covers(chunks[0], lines, 1, chunks[0].lineEnd);
    assert lines[..0] == [];
    forall i, j | 0 <= i < j < |chunks| && j == i + 1 ensures chunks[j].byteStart == chunks[i].byteEnd {
      assert Covers(chunks[i], lines, chunks[i].lineStart, chunks[i].lineEnd);
      assert Covers(chunks[j], lines, chunks[j].lineStart, chunks[j].lineEnd);
    }
  }

  /** The line ranges meet without gap or overlap exactly when each split point lies below the
      start of the chunk before it and the last one lies within the file. */
  lemma RangesMeetIff(sps: seq<Heading>, totalLines: int)
    requires sps != []
    ensures ((forall i {:trigger LastLine(sps, i, totalLines)} :: 0 <= i < |sps| - 1 ==>
                FirstLine(sps, i + 1) == LastLine(sps, i, totalLines) + 1)
             && LastLine(sps, |sps| - 1, totalLines) == totalLines)
            <==> ((forall i {:trigger FirstLine(sps, i)} :: 0 <= i < |sps| - 1 ==>
                     FirstLine(sps, i) < FirstLine(sps, i + 1))
                  && FirstLine(sps, |sps| - 1) <= totalLines)
  {
    forall i | 0 <= i < |sps| - 1
      ensures FirstLine(sps, i + 1) == LastLine(sps, i, totalLines) + 1 <==> FirstLine(sps, i) < FirstLine(sps, i + 1)
    {
    }
  }

  // ---- Splitting at headings -----------------------------------------------------------------------------

  type Slug = string -> string

  function BaseAnchor(slug: Slug, h: Heading, i: nat): string {
    if slug(h.text) != "" then slug(h.text) else "section-" + Numeral(i + 1, 10)
  }

  function Anchors(chunks: seq<Chunk>): set<string> {
    set i | 0 <= i < |chunks| :: chunks[i].anchor
  }

  /** How many headings lie at or above `line`. */
  function UpTo(hs: seq<Heading>, line: int): (n: nat)
    ensures n <= |hs|
  {
    if hs == [] || hs[0].line > line then 0 else 1 + UpTo(hs[1..], line)
  }

  lemma {:induction false} UpToAt(hs: seq<Heading>, k: nat)
    requires Increasing(hs) && k < |hs|
    ensures UpTo(hs, hs[k].line) == k + 1
  {
    if k > 0 {
      UpToAt(hs[1..], k - 1);
    } else if |hs| > 1 {
      assert hs[1..][0].line > hs[0].line;
    }
  }

  /** `c` is the chunk of split point `i`: its anchor makes do with those taken before, its
      breadcrumb comes from the headings down to it. */
  ghost predicate IsChunkOf(slug: Slug, hs: seq<Heading>, sps: seq<Heading>, lines: seq<Bytes>,
                            taken: set<string>, c: Chunk, i: int)
    requires 0 <= i < |sps|
  {
    && Covers(c, lines, FirstLine(sps, i), LastLine(sps, i, |lines|))
    && Disambiguates(BaseAnchor(slug, sps[i], i), taken, c.anchor)
    && var seen := hs[..UpTo(hs, sps[i].line)];
    seen != [] && seen[|seen| - 1] == sps[i] && c.breadcrumb == Ancestors(seen)
  }

  ghost predicate ChunksOf(slug: Slug, hs: seq<Heading>, sps: seq<Heading>, lines: seq<Bytes>, chunks: seq<Chunk>) {
    |chunks| <= |sps| &&
    forall i :: 0 <= i < |chunks| ==> IsChunkOf(slug, hs, sps, lines, Anchors(chunks[..i]), chunks[i], i)
  }

  lemma RangeInFile(sps: seq<Heading>, lines: seq<Bytes>, i: int)
    requires FromParser(sps, |lines|) && 0 <= i < |sps|
    ensures 1 <= FirstLine(sps, i) <= LastLine(sps, i, |lines|) <= |lines|
    ensures i + 1 < |sps| ==> FirstLine(sps, i + 1) == LastLine(sps, i, |lines|) + 1
    ensures i + 1 == |sps| ==> LastLine(sps, i, |lines|) == |lines|
  {
    if i + 1 < |sps| { assert sps[i].line < sps[i + 1].line; }
  }

  function NoDeeper(depth: int): Heading -> bool {
    (h: Heading) => h.level <= depth
  }

  function After(line: int): Heading -> bool {
    (h: Heading) => h.line > line
  }

  function SplitPoints(hs: seq<Heading>, depth: int): seq<Heading> {
    Filter(NoDeeper(depth), hs)
  }

  /** The headings after the frontmatter that ends at `line`. */
  function Below(hs: seq<Heading>, line: int): seq<Heading> {
    Filter(After(line), hs)
  }

  lemma {:induction false} FilterFromParser(p: Heading -> bool, hs: seq<Heading>, totalLines: int)
    requires FromParser(hs, totalLines)
    ensures FromParser(Filter(p, hs), totalLines)
    ensures hs == [] || Filter(p, hs) == [] || hs[0].line <= Filter(p, hs)[0].line
  {
    if hs != [] {
      var rest, tail := hs[1..], Filter(p, hs[1..]);
      FilterFromParser(p, rest, totalLines);
      assert Filter(p, hs) == (if p(hs[0]) then [hs[0]] + tail else tail);
      assert tail != [] ==> hs[0].line < rest[0].line <= tail[0].line;
      if p(hs[0]) { ConsFromParser(hs[0], tail, totalLines); }
    }
  }

  lemma ConsFromParser(h: Heading, tail: seq<Heading>, totalLines: int)
    requires FromParser(tail, totalLines) && 1 <= h.line <= totalLines && (tail != [] ==> h.line < tail[0].line)
    ensures FromParser([h] + tail, totalLines)
  {
    assert forall i :: 0 <= i < |tail| ==> tail[0].line <= tail[i].line;
  }

  lemma {:induction false} UpToSkips(hs: seq<Heading>, line: int, n: nat)
    requires n <= |hs| && forall k :: 0 <= k < n ==> hs[k].line <= line
    ensures UpTo(hs, line) == n + UpTo(hs[n..], line)
  {
    if n == 0 {
      assert hs[0..] == hs;
    } else {
      UpToSkips(hs[1..], line, n - 1);
      assert hs[1..][n - 1..] == hs[n..];
    }
  }

  lemma UpToNext(hs: seq<Heading>, line: int, n: nat)
    requires n <= |hs|
    ensures UpTo(hs[n..], line) == if n < |hs| && hs[n].line <= line then 1 + UpTo(hs[n + 1..], line) else 0
  {
    if n < |hs| { assert hs[n..][0] == hs[n] && hs[n..][1..] == hs[n + 1..]; }
  }

  lemma OneMore(hs: seq<Heading>, n: nat)
    requires n < |hs|
    ensures hs[..n + 1] == hs[..n] + [hs[n]]
  {
  }

  /** Observe every heading down to `line`. */
  method AdvanceTo(stack: BreadcrumbStack, hs: seq<Heading>, start: nat, line: int) returns (next: nat)
    requires start <= |hs| && stack.Valid() && stack.seen == hs[..start]
    requires UpTo(hs, line) == start + UpTo(hs[start..], line)
    modifies stack
    ensures next == UpTo(hs, line) && stack.Valid() && stack.seen == hs[..next]
  {
    next := start;
    while next < |hs| && hs[next].line <= line
      invariant next <= |hs| && stack.Valid() && stack.seen == hs[..next]
      invariant UpTo(hs, line) == next + UpTo(hs[next..], line)
    {
      stack.Observe(hs[next]);
      OneMore(hs, next);
      UpToNext(hs, line, next);
      next := next + 1;
    }
    UpToNext(hs, line, next);
  }

  lemma HeadingIsLastSeen(hs: seq<Heading>, sp: Heading)
    requires Increasing(hs) && sp in hs
    ensures 0 < UpTo(hs, sp.line) && hs[UpTo(hs, sp.line) - 1] == sp
  {
    var k :| 0 <= k < |hs| && hs[k] == sp;
    UpToAt(hs, k);
  }

  lemma EarlierAreSeen(hs: seq<Heading>, line: int, later: int)
    requires line <= later
    ensures forall k :: 0 <= k < UpTo(hs, line) ==> hs[k].line <= later
    decreases hs
  {
    if hs != [] && hs[0].line <= line {
      EarlierAreSeen(hs[1..], line, later);
      forall k | 0 <= k < UpTo(hs, line) ensures hs[k].line <= later {
        if k > 0 { assert hs[1..][k - 1] == hs[k]; }
      }
    }
  }

  lemma UpToLater(hs: seq<Heading>, line: int, later: int)
    requires line <= later
    ensures UpTo(hs, later) == UpTo(hs, line) + UpTo(hs[UpTo(hs, line)..], later)
  {
    EarlierAreSeen(hs, line, later);
    UpToSkips(hs, later, UpTo(hs, line));
  }

  lemma ChunksAppend(slug: Slug, hs: seq<Heading>, sps: seq<Heading>, lines: seq<Bytes>, chunks: seq<Chunk>, c: Chunk)
    requires ChunksOf(slug, hs, sps, lines, chunks) && |chunks| < |sps|
    requires IsChunkOf(slug, hs, sps, lines, Anchors(chunks), c, |chunks|)
    ensures ChunksOf(slug, hs, sps, lines, chunks + [c])
    ensures Anchors(chunks + [c]) == Anchors(chunks) + {c.anchor}
  {
    var more := chunks + [c];
    forall i | 0 <= i < |more| ensures IsChunkOf(slug, hs, sps, lines, Anchors(more[..i]), more[i], i) {
      assert more[..i] == chunks[..i];
      if i == |chunks| { assert chunks[..i] == chunks; }
    }
    assert Anchors(more) == Anchors(chunks) + {c.anchor} by {
      forall a ensures a in Anchors(more) <==> a in Anchors(chunks) + {c.anchor} {
        if a in Anchors(chunks) { var i :| 0 <= i < |chunks| && chunks[i].anchor == a; assert more[i] == chunks[i]; }
        assert more[|chunks|] == c;
      }
    }
  }

  /** The breadcrumb of split point `sp`, after the headings down to it have been observed. */
  method CrumbsFor(stack: BreadcrumbStack, hs: seq<Heading>, start: nat, sp: Heading)
    returns (next: nat, crumbs: seq<string>)
    requires Increasing(hs) && sp in hs
    requires start <= |hs| && stack.Valid() && stack.seen == hs[..start]
    requires UpTo(hs, sp.line) == start + UpTo(hs[start..], sp.line)
    modifies stack
    ensures next == UpTo(hs, sp.line) && stack.Valid() && stack.seen == hs[..next]
    ensures 0 < next && hs[next - 1] == sp && crumbs == Ancestors(hs[..next])
  {
    next := AdvanceTo(stack, hs, start, sp.line);
    crumbs := stack.AncestorsFor(sp);
    HeadingIsLastSeen(hs, sp);
  }

  method Cut(lines: seq<Bytes>, offsets: seq<int>, sps: seq<Heading>, i: nat, anchor: string, crumbs: seq<string>)
    returns (c: Chunk)
    requires FromParser(sps, |lines|) && i < |sps|
    requires OffsetsOf(lines, offsets)
    ensures Covers(c, lines, FirstLine(sps, i), LastLine(sps, i, |lines|))
    ensures c.anchor == anchor && c.breadcrumb == crumbs
  {
    var lineStart := if i == 0 then 1 else sps[i].line;
    var lineEnd := if i + 1 < |sps| then sps[i + 1].line - 1 else |lines|;
    if lineEnd < lineStart { lineEnd := lineStart; }
    RangeInFile(sps, lines, i);
    OffsetSlices(lines, lineStart - 1, lineEnd);
    var byteStart, byteEnd := offsets[lineStart - 1], offsets[lineEnd];
    var body := Flatten(lines)[byteStart..byteEnd];
    c := Chunk(anchor, crumbs, body, lineStart, lineEnd, byteStart, byteEnd);
  }

  method SplitByHeadings(slug: Slug, lines: seq<Bytes>, hs: seq<Heading>, depth: int) returns (chunks: seq<Chunk>)
    requires FromParser(hs, |lines|) && SplitPoints(hs, depth) != []
    ensures var sps := SplitPoints(hs, depth);
            |chunks| == |sps| && ChunksOf(slug, hs, sps, lines, chunks)
  {
    var sps := SplitPoints(hs, depth);
    FilterFromParser(NoDeeper(depth), hs, |lines|);
    forall sp | sp in sps ensures sp in hs { FilterMember(NoDeeper(depth), hs, sp); }
    chunks := CutAll(slug, lines, hs, sps);
  }

  /** One chunk per split point, down the file. */
  method CutAll(slug: Slug, lines: seq<Bytes>, hs: seq<Heading>, sps: seq<Heading>) returns (chunks: seq<Chunk>)
    requires Increasing(hs) && FromParser(sps, |lines|) && forall sp :: sp in sps ==> sp in hs
    ensures |chunks| == |sps| && ChunksOf(slug, hs, sps, lines, chunks)
  {
    var offsets := LineByteOffsets(lines);
    chunks := [];
    var stack := new BreadcrumbStack();
    var next: nat := 0;
    var seenAnchors: set<string> := {};
    for i := 0 to |sps|
      invariant |chunks| == i && ChunksOf(slug, hs, sps, lines, chunks)
      invariant next <= |hs| && fresh(stack) && stack.Valid() && stack.seen == hs[..next]
      invariant next == if i == 0 then 0 else UpTo(hs, sps[i - 1].line)
      invariant seenAnchors == Anchors(chunks)
    {
      next, seenAnchors, chunks := CutNext(slug, lines, offsets, hs, sps, chunks, stack, next, seenAnchors);
    }
  }

  method CutNext(slug: Slug, lines: seq<Bytes>, offsets: seq<int>, hs: seq<Heading>, sps: seq<Heading>,
                 chunks: seq<Chunk>, stack: BreadcrumbStack, start: nat, taken: set<string>)
    returns (next: nat, taken': set<string>, chunks': seq<Chunk>)
    requires Increasing(hs) && FromParser(sps, |lines|) && |chunks| < |sps| && sps[|chunks|] in hs
    requires OffsetsOf(lines, offsets) && ChunksOf(slug, hs, sps, lines, chunks) && taken == Anchors(chunks)
    requires start == if chunks == [] then 0 else UpTo(hs, sps[|chunks| - 1].line)
    requires start <= |hs| && stack.Valid() && stack.seen == hs[..start]
    modifies stack
    ensures next == UpTo(hs, sps[|chunks|].line) && stack.Valid() && stack.seen == hs[..next]
    ensures |chunks'| == |chunks| + 1 && ChunksOf(slug, hs, sps, lines, chunks') && taken' == Anchors(chunks')
  {
    var i := |chunks|;
    if i > 0 { UpToLater(hs, sps[i - 1].line, sps[i].line); } else { assert hs[0..] == hs; }
    var c;
    next, taken', c := CutOne(slug, lines, offsets, hs, sps, |chunks|, stack, start, taken);
    ChunksAppend(slug, hs, sps, lines, chunks, c);
    chunks' := chunks + [c];
  }

  /** The chunk of split point `i`, with the headings down to it observed. */
  method CutOne(slug: Slug, lines: seq<Bytes>, offsets: seq<int>, hs: seq<Heading>, sps: seq<Heading>, i: nat,
                stack: BreadcrumbStack, start: nat, taken: set<string>)
    returns (next: nat, taken': set<string>, c: Chunk)
    requires Increasing(hs) && FromParser(sps, |lines|) && i < |sps| && sps[i] in hs
    requires OffsetsOf(lines, offsets)
    requires start <= |hs| && UpTo(hs, sps[i].line) == start + UpTo(hs[start..], sps[i].line)
    requires stack.Valid() && stack.seen == hs[..start]
    modifies stack
    ensures next == UpTo(hs, sps[i].line) && stack.Valid() && stack.seen == hs[..next]
    ensures IsChunkOf(slug, hs, sps, lines, taken, c, i) && taken' == taken + {c.anchor}
  {
    var crumbs, anchor;
    next, crumbs := CrumbsFor(stack, hs, start, sps[i]);
    anchor, taken' := DisambiguateAnchor(BaseAnchor(slug, sps[i], i), taken);
    c := Cut(lines, offsets, sps, i, anchor, crumbs);
  }

  lemma SplitTiles(slug: Slug, hs: seq<Heading>, sps: seq<Heading>, lines: seq<Bytes>, chunks: seq<Chunk>)
    requires FromParser(sps, |lines|) && sps != [] && |chunks| == |sps|
    requires ChunksOf(slug, hs, sps, lines, chunks)
    ensures Tiles(chunks, lines)
  {
    forall i | 0 <= i < |chunks|
      ensures Covers(chunks[i], lines, FirstLine(sps, i), LastLine(sps, i, |lines|))
    {
      assert IsChunkOf(slug, hs, sps, lines, Anchors(chunks[..i]), chunks[i], i);
    }
    RangesTile(sps, lines, chunks);
  }

  lemma RangesTile(sps: seq<Heading>, lines: seq<Bytes>, chunks: seq<Chunk>)
    requires FromParser(sps, |lines|) && sps != [] && |chunks| == |sps|
    requires forall i :: 0 <= i < |chunks| ==> Covers(chunks[i], lines, FirstLine(sps, i), LastLine(sps, i, |lines|))
    ensures Tiles(chunks, lines)
  {
    forall i, j | 0 <= i < j < |chunks| && j == i + 1 ensures chunks[j].lineStart == chunks[i].lineEnd + 1 {
      RangeInFile(sps, lines, i);
    }
    RangeInFile(sps, lines, |sps| - 1);
  }

  /** Anchors within one file are pairwise distinct. */
  lemma AnchorsAreDistinct(slug: Slug, hs: seq<Heading>, sps: seq<Heading>, lines: seq<Bytes>, chunks: seq<Chunk>)
    requires ChunksOf(slug, hs, sps, lines, chunks)
    ensures forall i, j :: 0 <= i < j < |chunks| ==> chunks[i].anchor != chunks[j].anchor
  {
    forall i, j | 0 <= i < j < |chunks| ensures chunks[i].anchor != chunks[j].anchor {
      assert IsChunkOf(slug, hs, sps, lines, Anchors(chunks[..j]), chunks[j], j);
      assert chunks[..j][i] == chunks[i];
    }
  }

  /** The whole of `_chunk_text`: one chunk for short files and files without split points. */
  method ChunkText(slug: Slug, stem: string, lines: seq<Bytes>, parsed: seq<Heading>, frontmatterEnd: nat,
                   depth: int, maxSingleChunkLines: int) returns (chunks: seq<Chunk>)
    requires FromParser(parsed, |lines|)
    ensures Bodies(chunks) == Flatten(lines)
    ensures forall i, j :: 0 <= i < j < |chunks| ==> chunks[i].anchor != chunks[j].anchor
    ensures var hs := if frontmatterEnd != 0 then Below(parsed, frontmatterEnd) else parsed;
            var sps := SplitPoints(hs, depth);
            if sps == [] || |lines| < maxSingleChunkLines
            then |chunks| == 1 && chunks[0].breadcrumb == [] && chunks[0].anchor != ""
                 && chunks[0].lineStart == 1 && chunks[0].lineEnd == (if lines == [] then 1 else |lines|)
                 && chunks[0].byteStart == 0 && chunks[0].byteEnd == |Flatten(lines)|
            else |chunks| == |sps| && Tiles(chunks, lines) && ChunksOf(slug, hs, sps, lines, chunks)
  {
    var hs := if frontmatterEnd != 0 then Below(parsed, frontmatterEnd) else parsed;
    FilterFromParser(After(frontmatterEnd), parsed, |lines|);
    var sps := SplitPoints(hs, depth);
    if sps == [] || |lines| < maxSingleChunkLines {
      var source := slug(if hs != [] then hs[0].text else stem);
      var anchor := if source != "" then source else if slug(stem) != "" then slug(stem) else "chunk";
      var last := if |lines| > 1 then |lines| else 1;
      chunks := [Chunk(anchor, [], Flatten(lines), 1, last, 0, |Flatten(lines)|)];
      assert chunks[..0] == [];
      return;
    }
    chunks := SplitByHeadings(slug, lines, hs, depth);
    FilterFromParser(NoDeeper(depth), hs, |lines|);
    SplitTiles(slug, hs, sps, lines, chunks);
    TilingReassembles(chunks, lines);
    AnchorsAreDistinct(slug, hs, sps, lines, chunks);
  }
}
