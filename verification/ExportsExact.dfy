/** Extraction is right in every run if and only if the text is disciplined. */
module ExportsExact {
  import opened Basics
  import opened Exports
  import opened ExportsWorst
  import opened ExportsRight

  // ---- What the worst run leaves in `__all__` -----------------------------------------------------------

  lemma {:induction false} LiteralMeans(elts: seq<Elt>)
    requires Elements(elts).Literal?
    ensures SameNames(StringsOf(elts), Elements(elts).names)
  {
    if elts != [] { LiteralMeans(elts[..|elts| - 1]); }
  }

  function Content(st: State): seq<string>
    requires Clean(st, ALL)
  {
    if st.env[ALL].Strings? then st.env[ALL].names else st.heap[st.env[ALL].r].names
  }

  /** Lists of strings are as they were. */
  ghost predicate Spares(heap: seq<Object>, heap': seq<Object>) {
    |heap| <= |heap'| && forall i :: 0 <= i < |heap'| && heap'[i].Strs? ==> i < |heap| && heap'[i] == heap[i]
  }

  lemma UnknownSpares(w: State, binds: set<string>, uses: set<string>, objs: set<nat>)
    ensures var w' := WorstUnknown(w, binds, uses, objs);
            && Spares(w.heap, w'.heap)
            && (Clean(w', ALL) ==> Clean(w, ALL) && w'.env[ALL] == w.env[ALL] && Content(w') == Content(w))
  {
  }

  /** After the targets: `__all__` refers to the new value if it is one of them, or to something unknown. */
  lemma {:induction false} BindSpares(targets: seq<Target>, v: Value, w: State)
    ensures var w' := WorstBind(targets, v, w);
            && Spares(w.heap, w'.heap)
            && (Clean(w', ALL) ==>
                  if Name(ALL) in targets then w'.env[ALL] == v else ALL in w.env && w'.env[ALL] == w.env[ALL])
  {
    if targets != [] {
      var front, last := targets[..|targets| - 1], targets[|targets| - 1];
      BindSpares(front, v, w);
      assert targets == front + [last];
      if last.Pattern? { UnknownSpares(WorstBind(front, v, w), last.binds, last.uses, Seeds(v)); }
    }
  }

  lemma ReplacementHolds(targets: seq<Target>, value: Expr, w: State)
    requires Name(ALL) in targets && LiteralNames(value).Literal? && Clean(WorstAssign(targets, value, w), ALL)
    ensures SameNames(Content(WorstAssign(targets, value, w)), LiteralNames(value).names)
  {
    var e := WorstEval(value, w);
    LiteralMeans(value.elts);
    BindSpares(targets, e.value, e.after);
  }

  lemma EvalSpares(e: Expr, w: State)
    requires WellFormed(w)
    ensures var w' := WorstEval(e, w).after;
            Clean(w', ALL) && ALL in w.env && w'.env[ALL] == w.env[ALL] ==> Clean(w, ALL) && Content(w') == Content(w)
  {
    UnknownSpares(w, {}, Uses(e), {});
    if ALL in w.env { assert ValueExists(w.heap, w.env[ALL]); }
  }

  lemma OtherAssignHolds(targets: seq<Target>, value: Expr, w: State)
    requires Name(ALL) !in targets && WellFormed(w) && Clean(WorstAssign(targets, value, w), ALL)
    ensures Clean(w, ALL) && Content(WorstAssign(targets, value, w)) == Content(w)
  {
    var e := WorstEval(value, w);
    BindSpares(targets, e.value, e.after);
    EvalSpares(value, w);
  }

  lemma AssignHolds(targets: seq<Target>, value: Expr, w: State, names: set<string>)
    requires WellFormed(w) && Clean(WorstAssign(targets, value, w), ALL)
    requires if Name(ALL) in targets then LiteralNames(value).Literal? && names == LiteralNames(value).names
             else Clean(w, ALL) ==> SameNames(Content(w), names)
    ensures SameNames(Content(WorstAssign(targets, value, w)), names)
  {
    if Name(ALL) in targets { ReplacementHolds(targets, value, w); } else { OtherAssignHolds(targets, value, w); }
  }

  lemma AugmentHolds(id: string, op: Op, value: Expr, w: State, t: Working, extra: set<string>)
    requires !Raises(id, op, value, w) && Clean(WorstAugment(id, op, value, w), ALL)
    requires t.Known? && Track(t, AugAssign(Name(id), op, value)).Known?
    requires Clean(w, ALL) ==> SameNames(Content(w), t.names + extra)
    ensures var s := AugAssign(Name(id), op, value);
            SameNames(Content(WorstAugment(id, op, value, w)), Track(t, s).names + extra + Added(s, w))
  {
    if LiteralNames(value).Literal? { LiteralMeans(value.elts); }
    UnknownSpares(w, {}, {id} + Uses(value), {});
  }

  /** One statement: if `__all__` is still clean, it holds the extracted names and what was added through
      other names, nothing else. */
  lemma StepHolds(s: Stmt, w: State, t: Working, extra: set<string>)
    requires WellFormed(w) && !Fails(s, w) && Track(t, s).Known? && Clean(WorstStep(s, w), ALL)
    requires Replaces(s) || (Clean(w, ALL) && t.Known? ==> SameNames(Content(w), t.names + extra))
    ensures SameNames(Content(WorstStep(s, w)), Track(t, s).names + if Replaces(s) then {} else extra + Added(s, w))
  {
    var names := Track(t, s).names + if Replaces(s) then {} else extra + Added(s, w);
    match s
    case Assign(targets, value) => AssignHolds(targets, value, w, names);
    case AnnAssign(target, annotated) =>
      if annotated.Some? {
        assert IsAll(target) <==> Name(ALL) in [target];
        AssignHolds([target], annotated.value, w, names);
      }
    case AugAssign(target, op, value) =>
      if target.Name? {
        AugmentHolds(target.id, op, value, w, t, extra);
      } else {
        UnknownSpares(w, {}, target.binds + target.uses + Uses(value), {});
      }
    case Def(id, free) => if ALL in w.env { assert ValueExists(w.heap, w.env[ALL]); }
    case Other(binds, uses) => UnknownSpares(w, binds, uses, {});
  }

  lemma {:induction false} WorstHolds(body: seq<Stmt>)
    requires Runs(body) && TrackAll(body).Known? && Clean(Worst(body), ALL)
    ensures SameNames(Content(Worst(body)), TrackAll(body).names + Extra(body))
    decreases |body|
  {
    var front, last := body[..|body| - 1], body[|body| - 1];
    WorstEnds(front);
    if Clean(Worst(front), ALL) && TrackAll(front).Known? { WorstHolds(front); }
    StepHolds(last, Worst(front), TrackAll(front), Extra(front));
  }

  // ---- The exact condition --------------------------------------------------------------------------------

  /** A run ends with these names in `__all__` if the worst one does. */
  lemma MatchedHolds(st: State, w: State, at: seq<nat>, names: set<string>)
    requires Matches(st, w, at) && HoldsExactly(w, names)
    ensures HoldsExactly(st, names)
  {
    assert Clean(w, ALL);
    assert ValueMatches(st.env[ALL], w.heap, w.env[ALL], at);
    if w.env[ALL].Ref? {
      var o := st.env[ALL].r;
      assert ObjectMatches(st.heap[o], w.heap, at[o], at);
    }
  }

  lemma WorstIsRightIff(body: seq<Stmt>)
    requires Runs(body) && TrackAll(body).Known?
    ensures HoldsExactly(Worst(body), TrackAll(body).names) <==> Disciplined(body)
  {
    if Clean(Worst(body), ALL) { WorstHolds(body); }
  }

  /** Whether the module can be run to its end can be told from the text. */
  lemma RunsIff(body: seq<Stmt>)
    ensures Runs(body) <==> exists st :: Ends(body, st)
  {
    if Runs(body) {
      WorstEnds(body);
      assert Ends(body, Worst(body));
    } else if st :| Ends(body, st) {
      var at := RunIsMatched(body, st);
    }
  }

  /** For a module that extraction gives names for and that can be run at all: the names are what `__all__`
      holds at the end of every run, whatever the code does of which only the names are known, if and
      only if the text is disciplined. */
  lemma ExtractionIsRightIff(body: seq<Stmt>)
    requires TrackAll(body).Known? && exists st :: Ends(body, st)
    ensures (forall st :: Ends(body, st) ==> HoldsExactly(st, TrackAll(body).names)) <==> Disciplined(body)
  {
    RunsIff(body);
    WorstIsRightIff(body);
    WorstEnds(body);
    if Disciplined(body) {
      forall st | Ends(body, st) ensures HoldsExactly(st, TrackAll(body).names) {
        var at := RunIsMatched(body, st);
        MatchedHolds(st, Worst(body), at, TrackAll(body).names);
      }
    }
  }

  // ---- Instances ----------------------------------------------------------------------------------------

  function One(name: string): Expr {
    Display(true, [StrConst(name)])
  }

  lemma OneIs(name: string)
    ensures LiteralNames(One(name)) == Literal({name}) && StringsOf([StrConst(name)]) == [name]
  {
    assert [StrConst(name)][..0] == [];
    assert Elements([]) == Literal({}) && StringsOf([]) == [];
  }

  lemma Appended(body: seq<Stmt>, s: Stmt)
    ensures var w := Worst(body);
            && Worst(body + [s]) == WorstStep(s, w) && TrackAll(body + [s]) == Track(TrackAll(body), s)
            && (Runs(body + [s]) <==> Runs(body) && !Fails(s, w))
            && Extra(body + [s]) == if Replaces(s) then {} else Extra(body) + Added(s, w)
  {
    assert (body + [s])[..|body|] == body;
  }

  lemma BindNames(ids: seq<string>, v: Value, w: State)
    requires |ids| <= 2
    ensures |ids| == 1 ==> WorstBind([Name(ids[0])], v, w) == w.(env := w.env[ids[0] := v])
    ensures |ids| == 2 ==>
              WorstBind([Name(ids[0]), Name(ids[1])], v, w) == w.(env := w.env[ids[0] := v][ids[1] := v])
  {
    if |ids| == 1 { assert [Name(ids[0])][..0] == []; }
    if |ids| == 2 {
      assert [Name(ids[0]), Name(ids[1])][..1] == [Name(ids[0])] && [Name(ids[0])][..0] == [];
      assert WorstBind([Name(ids[0])], v, w) == w.(env := w.env[ids[0] := v]);
    }
  }

  /** `__all__ = [name]`. */
  function Declare(name: string): Stmt {
    Assign([Name(ALL)], One(name))
  }

  /** After `body`, then `__all__ = [name]`. */
  lemma Declared(body: seq<Stmt>, name: string)
    requires Runs(body)
    ensures var w, now := Worst(body), body + [Declare(name)];
            && Runs(now) && TrackAll(now) == Known({name}) && Extra(now) == {} && Disciplined(now)
            && Worst(now) == State(w.env[ALL := Ref(|w.heap|)], w.heap + [Strs([name])])
  {
    OneIs(name);
    Appended(body, Declare(name));
    BindNames([ALL], Ref(|Worst(body).heap|), Alloc(Worst(body), Strs([name])));
    assert Replaces(Declare(name)) by { assert [Name(ALL)][0] == Name(ALL); }
  }

  /** A run of the module ends with something else in `__all__`. */
  ghost predicate Fooled(body: seq<Stmt>) {
    TrackAll(body).Known? && exists st :: Ends(body, st) && !HoldsExactly(st, TrackAll(body).names)
  }

  lemma UndisciplinedFools(body: seq<Stmt>)
    requires Runs(body) && TrackAll(body).Known? && !Disciplined(body)
    ensures Fooled(body)
  {
    RunsIff(body);
    ExtractionIsRightIff(body);
  }

  lemma SharedIs()
    ensures var body := [Assign([Name("b"), Name(ALL)], One("a"))];
            && Runs(body) && TrackAll(body) == Known({"a"}) && Extra(body) == {}
            && Worst(body) == State(map["b" := Ref(0), ALL := Ref(0)], [Strs(["a"])])
  {
    var a := Assign([Name("b"), Name(ALL)], One("a"));
    OneIs("a");
    Appended([], a);
    assert [] + [a] == [a];
    BindNames(["b", ALL], Ref(0), State(map[], [Strs(["a"])]));
    assert START.heap + [Strs(["a"])] == [Strs(["a"])];
    assert a.targets[1] == Name(ALL);
  }

  /** `b = __all__ = ["a"]`, then `b += [name]`: the extractor says "a"; the list holds both names, so it is
      right exactly when `name` is "a" as well. */
  lemma AliasFoolsIff(name: string)
    ensures var body := [Assign([Name("b"), Name(ALL)], One("a")), AugAssign(Name("b"), Add, One(name))];
            && TrackAll(body) == Known({"a"}) && Runs(body)
            && (forall st :: Ends(body, st) ==> HoldsExactly(st, {"a", name}))
            && (Disciplined(body) <==> name == "a")
  {
    var a, b := Assign([Name("b"), Name(ALL)], One("a")), AugAssign(Name("b"), Add, One(name));
    var body := [a, b];
    SharedIs();
    OneIs(name);
    Appended([a], b);
    assert [a] + [b] == body;
    assert !Raises("b", Add, One(name), Worst([a]));
    assert Worst(body).heap == [Strs(["a"] + [name])];
    assert HoldsExactly(Worst(body), {"a", name});
    forall st | Ends(body, st) ensures HoldsExactly(st, {"a", name}) {
      var at := RunIsMatched(body, st);
      MatchedHolds(st, Worst(body), at, {"a", name});
    }
  }

  /** After `__all__ = ["a"]`, an unpacking that binds `__all__` again. */
  lemma UnpackingFools(binds: set<string>, value: Expr)
    requires ALL in binds
    ensures Fooled([Declare("a"), Assign([Pattern(binds, {})], value)])
  {
    var a, b := Declare("a"), Assign([Pattern(binds, {})], value);
    Declared([], "a");
    Appended([a], b);
    assert [] + [a] == [a] && [a] + [b] == [a, b];
    var e := WorstEval(value, Worst([a]));
    assert b.targets[..0] == [] && WorstBind([], e.value, e.after) == e.after;
    UndisciplinedFools([a, b]);
  }

  lemma ContainerIs(c: string)
    requires c != ALL
    ensures var body := [Declare("a"), Assign([Name(c)], Display(true, [NameElt(ALL)]))];
            && Runs(body) && TrackAll(body) == Known({"a"}) && Extra(body) == {}
            && Worst(body) == State(map[ALL := Ref(0), c := Ref(1)], [Strs(["a"]), Box({0}, {})])
  {
    var a, b, elts := Declare("a"), Assign([Name(c)], Display(true, [NameElt(ALL)])), [NameElt(ALL)];
    Declared([], "a");
    Appended([a], b);
    assert [] + [a] == [a] && [a] + [b] == [a, b];
    assert elts[0] == NameElt(ALL) && Elements(elts).NotLiteral?;
    assert RefsOf(elts, Worst([a]).env) == {0} by { assert elts[0] in elts; }
    BindNames([c], Ref(1), Alloc(Worst([a]), Box({0}, {})));
  }

  /** `__all__ = ["a"]; c = [__all__]` is fine; what is then done to an element of `c` is not. */
  lemma ContainerFools(c: string, value: Expr)
    requires c != ALL
    ensures var body := [Declare("a"), Assign([Name(c)], Display(true, [NameElt(ALL)]))];
            Disciplined(body) && Fooled(body + [AugAssign(Pattern({}, {c}), Add, value)])
  {
    var body := [Declare("a"), Assign([Name(c)], Display(true, [NameElt(ALL)]))];
    var s := AugAssign(Pattern({}, {c}), Add, value);
    ContainerIs(c);
    Appended(body, s);
    var r := Reach(Worst(body), {} + {c} + Uses(value), {});
    assert c in r.vars && 1 in r.objs && 0 in r.objs;
    UndisciplinedFools(body + [s]);
  }

  lemma HelperIs(f: string, free: set<string>)
    requires f != ALL
    ensures var body := [Def(f, free), Declare("a")];
            && Runs(body) && TrackAll(body) == Known({"a"}) && Disciplined(body)
            && Worst(body) == State(map[f := Ref(0), ALL := Ref(1)], [Box({}, free), Strs(["a"])])
  {
    var a := Def(f, free);
    Appended([], a);
    assert [] + [a] == [a] && [a] + [Declare("a")] == [a, Declare("a")];
    Declared([a], "a");
  }

  /** A helper that mentions `__all__` is fine until something uses it, also when it was defined before
      `__all__`. */
  lemma HelperFools(f: string, free: set<string>, uses: set<string>)
    requires f != ALL && ALL in free && f in uses
    ensures var body := [Def(f, free), Declare("a")];
            Disciplined(body) && Fooled(body + [Other({}, uses)])
  {
    var body, s := [Def(f, free), Declare("a")], Other({}, uses);
    HelperIs(f, free);
    Appended(body, s);
    var r := Reach(Worst(body), uses, {});
    assert f in r.vars && 0 in r.objs && ALL in r.vars;
    UndisciplinedFools(body + [s]);
  }
}
