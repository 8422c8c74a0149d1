/** Every run of a module is matched by the worst one, and with it the exact condition under which the
    extracted names are right. */
module ExportsRight {
  import opened Basics
  import opened Exports
  import opened ExportsWorst

  // ---- Matching a run with the worst one --------------------------------------------------------------

  /** Object `a` leads to object `b`, by what objects hold. */
  ghost predicate Leads(heap: seq<Object>, a: nat, b: nat) {
    forall z :: HeldClosed(heap, z) && a in z.objs ==> b in z.objs
  }

  ghost predicate LeadsToVar(heap: seq<Object>, a: nat, v: string) {
    forall z :: HeldClosed(heap, z) && a in z.objs ==> v in z.vars
  }

  /** `at[o]` is the object that stands for object `o` of the run. A tuple or list of strings of the worst run
      is one of the run as well; where the worst run has something else, that leads to what the run has. */
  ghost predicate ValueMatches(v: Value, heap: seq<Object>, x: Value, at: seq<nat>) {
    match x
    case Strings(_) => v == x
    case Ref(r) =>
      r < |heap| &&
      match v
      case Strings(_) => heap[r].Box?
      case Ref(o) => o < |at| && if heap[r].Strs? then at[o] == r else Leads(heap, r, at[o])
  }

  ghost predicate ObjectMatches(x: Object, heap: seq<Object>, a: nat, at: seq<nat>) {
    && a < |heap|
    && (heap[a].Strs? ==> x == heap[a])
    && (x.Box? ==>
          && (forall v :: v in x.vars ==> LeadsToVar(heap, a, v))
          && (forall p :: p in x.refs ==> p < |at| && Leads(heap, a, at[p])))
  }

  ghost predicate HeapMatches(heap: seq<Object>, worst: seq<Object>, at: seq<nat>) {
    && |at| == |heap|
    && (forall o :: 0 <= o < |heap| ==> ObjectMatches(heap[o], worst, at[o], at))
    && (forall o, p :: 0 <= o < p < |heap| && at[o] == at[p] ==> worst[at[o]].Box?)
  }

  ghost predicate EnvMatches(env: map<string, Value>, w: State, at: seq<nat>) {
    && (forall n :: n in env ==> n in w.env && ValueMatches(env[n], w.heap, w.env[n], at))
    && (forall n :: Clean(w, n) ==> n in env)
  }

  ghost predicate Matches(st: State, w: State, at: seq<nat>) {
    WellFormed(st) && WellFormed(w) && HeapMatches(st.heap, w.heap, at) && EnvMatches(st.env, w, at)
  }

  // ---- Unknown code ----------------------------------------------------------------------------------

  /** What a zone of the worst run stands for. */
  ghost function Behind(at: seq<nat>, z: Zone): Zone {
    Zone(z.vars, set o | 0 <= o < |at| && at[o] in z.objs)
  }

  lemma BehindIsClosed(st: State, w: State, at: seq<nat>, z: Zone)
    requires Matches(st, w, at) && Closed(w, z)
    ensures Closed(st, Behind(at, z))
  {
    var b := Behind(at, z);
    forall o | o in b.objs && o < |st.heap| && st.heap[o].Box?
      ensures st.heap[o].refs <= b.objs && st.heap[o].vars <= b.vars
    {
      assert ObjectMatches(st.heap[o], w.heap, at[o], at);
    }
    forall v | v in b.vars && v in st.env && st.env[v].Ref? ensures st.env[v].r in b.objs {
      assert ValueMatches(st.env[v], w.heap, w.env[v], at);
    }
  }

  lemma SeedIsBehind(w: State, at: seq<nat>, z: Zone, v: Value, x: Value)
    requires ValueMatches(v, w.heap, x, at) && Closed(w, z) && Seeds(x) <= z.objs
    ensures Seeds(v) <= Behind(at, z).objs
  {
  }

  /** In the worst run objects only come to lead to more. */
  ghost predicate Grows(heap: seq<Object>, heap': seq<Object>) {
    && |heap| <= |heap'|
    && (forall i :: 0 <= i < |heap| && heap'[i].Strs? ==> heap[i].Strs?)
    && (forall z :: HeldClosed(heap', z) ==> HeldClosed(heap, z))
  }

  lemma WorstGrows(w: State, binds: set<string>, uses: set<string>, objs: set<nat>)
    ensures Grows(w.heap, WorstUnknown(w, binds, uses, objs).heap)
  {
    var heap', r := WorstUnknown(w, binds, uses, objs).heap, Reach(w, uses, objs);
    forall z | HeldClosed(heap', z) ensures HeldClosed(w.heap, z) {
      forall o | o in z.objs && o < |w.heap| && w.heap[o].Box?
        ensures w.heap[o].refs <= z.objs && w.heap[o].vars <= z.vars
      {
        assert heap'[o].refs <= z.objs && heap'[o].vars <= z.vars;
      }
    }
  }

  lemma GrowingKeeps(v: Value, heap: seq<Object>, heap': seq<Object>, x: Value, at: seq<nat>, more: seq<nat>)
    requires ValueMatches(v, heap, x, at) && Grows(heap, heap')
    ensures ValueMatches(v, heap', x, at + more)
  {
  }

  /** From an object that unknown code reached, all that it reached can be got at. */
  lemma ReachedLeadsEverywhere(w: State, binds: set<string>, uses: set<string>, objs: set<nat>, a: nat)
    requires a == |w.heap| || (a < |w.heap| && a in Reach(w, uses, objs).objs)
    ensures var heap', r := WorstUnknown(w, binds, uses, objs).heap, Reach(w, uses, objs);
            && (forall b :: b in r.objs || b == |w.heap| ==> Leads(heap', a, b))
            && (forall v :: v in r.vars ==> LeadsToVar(heap', a, v))
  {
    var heap', r := WorstUnknown(w, binds, uses, objs).heap, Reach(w, uses, objs);
    assert heap'[a] == Box(r.objs + {|w.heap|}, r.vars);
  }

  lemma UnknownHeapMatches(st: State, w: State, at: seq<nat>, binds: set<string>, uses: set<string>, objs: set<nat>,
                           heap': seq<Object>, more: seq<nat>)
    requires Matches(st, w, at) && HeapConfined(st.heap, Behind(at, Reach(w, uses, objs)), heap')
    requires |more| == |heap'| - |st.heap| && (forall i :: 0 <= i < |more| ==> more[i] == |w.heap|)
    requires forall o, p :: 0 <= o < |heap'| && heap'[o].Box? && p in heap'[o].refs ==> p < |heap'|
    ensures HeapMatches(heap', WorstUnknown(w, binds, uses, objs).heap, at + more)
  {
    var r, worst := Reach(w, uses, objs), WorstUnknown(w, binds, uses, objs).heap;
    var all := at + more;
    WorstGrows(w, binds, uses, objs);
    forall o | 0 <= o < |heap'| ensures ObjectMatches(heap'[o], worst, all[o], all) {
      if o < |at| && at[o] !in r.objs {
        assert ObjectMatches(st.heap[o], w.heap, at[o], at);
        assert heap'[o] == st.heap[o];
      } else {
        if o < |at| { assert ObjectMatches(st.heap[o], w.heap, at[o], at); }
        ReachedLeadsEverywhere(w, binds, uses, objs, all[o]);
      }
    }
    forall o, p | 0 <= o < p < |heap'| && all[o] == all[p] ensures worst[all[o]].Box? {
      if p < |at| {
        assert ObjectMatches(st.heap[o], w.heap, at[o], at);
        assert w.heap[at[o]].Box?;
      }
    }
  }

  lemma UnknownEnvMatches(st: State, w: State, at: seq<nat>, binds: set<string>, uses: set<string>, objs: set<nat>,
                          st': State, more: seq<nat>)
    requires Matches(st, w, at) && WellFormed(st')
    requires EnvConfined(st.env, Behind(at, Reach(w, uses, objs)), binds, |st.heap|, st'.env)
    requires |more| == |st'.heap| - |st.heap| && (forall i :: 0 <= i < |more| ==> more[i] == |w.heap|)
    ensures EnvMatches(st'.env, WorstUnknown(w, binds, uses, objs), at + more)
  {
    var r, w' := Reach(w, uses, objs), WorstUnknown(w, binds, uses, objs);
    WorstGrows(w, binds, uses, objs);
    ReachedLeadsEverywhere(w, binds, uses, objs, |w.heap|);
    forall n | n in st'.env ensures n in w'.env && ValueMatches(st'.env[n], w'.heap, w'.env[n], at + more) {
      if n !in r.vars && n !in binds {
        GrowingKeeps(st.env[n], w.heap, w'.heap, w.env[n], at, more);
      } else {
        assert w'.env[n] == Ref(|w.heap|) && w'.heap[|w.heap|].Box?;
      }
    }
    forall n | Clean(w', n) ensures n in st'.env {
      assert n !in r.vars && n !in binds;
      assert Clean(w, n);
    }
  }

  /** Whatever unknown code does from here, the worst run has it. */
  lemma UnknownIsMatched(st: State, w: State, at: seq<nat>, binds: set<string>, uses: set<string>, s: Value, x: Value,
                         v: Value, st': State) returns (all: seq<nat>)
    requires Matches(st, w, at) && ValueMatches(s, w.heap, x, at) && Unknown(st, binds, uses, Seeds(s), v, st')
    ensures var w' := WorstUnknown(w, binds, uses, Seeds(x));
            Matches(st', w', all) && ValueMatches(v, w'.heap, Ref(|w.heap|), all) && ValueMatches(s, w'.heap, x, all)
  {
    var r, w' := Reach(w, uses, Seeds(x)), WorstUnknown(w, binds, uses, Seeds(x));
    var z := Behind(at, r);
    BehindIsClosed(st, w, at, r);
    SeedIsBehind(w, at, r, s, x);
    assert HeapConfined(st.heap, z, st'.heap) && EnvConfined(st.env, z, binds, |st.heap|, st'.env);
    assert From(z, |st.heap|, v);
    var more := seq(|st'.heap| - |st.heap|, _ => |w.heap|);
    all := at + more;
    UnknownHeapMatches(st, w, at, binds, uses, Seeds(x), st'.heap, more);
    UnknownEnvMatches(st, w, at, binds, uses, Seeds(x), st', more);
    WorstIsUnknown(w, binds, uses, Seeds(x), NONE);
    WorstGrows(w, binds, uses, Seeds(x));
    GrowingKeeps(s, w.heap, w'.heap, x, at, more);
    ReachedLeadsEverywhere(w, binds, uses, Seeds(x), |w.heap|);
  }

  // ---- Expressions and targets --------------------------------------------------------------------------

  lemma AllocIsMatched(st: State, w: State, at: seq<nat>, o: Object, x: Object)
    requires Matches(st, w, at) && WellFormed(Alloc(st, o)) && WellFormed(Alloc(w, x))
    requires ObjectMatches(o, Alloc(w, x).heap, |w.heap|, at)
    ensures Grows(w.heap, Alloc(w, x).heap)
    ensures Matches(Alloc(st, o), Alloc(w, x), at + [|w.heap|])
    ensures ValueMatches(Ref(|st.heap|), Alloc(w, x).heap, Ref(|w.heap|), at + [|w.heap|])
  {
    var heap, heap', all := w.heap, Alloc(w, x).heap, at + [|w.heap|];
    AllocGrows(w, x);
    forall i | 0 <= i < |st.heap| + 1 ensures ObjectMatches(Alloc(st, o).heap[i], heap', all[i], all) {
      if i < |st.heap| { assert ObjectMatches(st.heap[i], heap, at[i], at); }
    }
    forall i, j | 0 <= i < j < |st.heap| + 1 && all[i] == all[j] ensures heap'[all[i]].Box? {
      assert ObjectMatches(st.heap[i], heap, at[i], at);
    }
    forall n | n in st.env ensures ValueMatches(st.env[n], heap', w.env[n], all) {
      GrowingKeeps(st.env[n], heap, heap', w.env[n], at, [|w.heap|]);
    }
    forall n | Clean(Alloc(w, x), n) ensures n in st.env {
      assert ValueExists(heap, w.env[n]);
      assert Clean(w, n);
    }
  }

  lemma AllocGrows(w: State, x: Object)
    ensures Grows(w.heap, Alloc(w, x).heap)
  {
    var heap' := Alloc(w, x).heap;
    forall z | HeldClosed(heap', z) ensures HeldClosed(w.heap, z) {
      forall o | o in z.objs && o < |w.heap| && w.heap[o].Box?
        ensures w.heap[o].refs <= z.objs && w.heap[o].vars <= z.vars
      {
        assert heap'[o] == w.heap[o];
      }
    }
  }

  /** A display holds what its names refer to. */
  lemma DisplayIsMatched(elts: seq<Elt>, st: State, w: State, at: seq<nat>)
    requires Matches(st, w, at)
    ensures var o, x := Box(RefsOf(elts, st.env), {}), Box(RefsOf(elts, w.env), {});
            WellFormed(Alloc(st, o)) && WellFormed(Alloc(w, x)) && ObjectMatches(o, Alloc(w, x).heap, |w.heap|, at)
  {
    var o, x := Box(RefsOf(elts, st.env), {}), Box(RefsOf(elts, w.env), {});
    var heap' := Alloc(w, x).heap;
    AllocGrows(w, x);
    forall p | p in o.refs ensures p < |at| && Leads(heap', |w.heap|, at[p]) {
      var e :| e in elts && e.NameElt? && e.id in st.env && st.env[e.id] == Ref(p);
      GrowingKeeps(st.env[e.id], w.heap, heap', w.env[e.id], at, []);
      assert w.env[e.id].r in x.refs;
      assert at + [] == at;
      forall z | HeldClosed(heap', z) && |w.heap| in z.objs ensures at[p] in z.objs {
        assert heap'[|w.heap|] == x;
      }
    }
  }

  lemma EvalIsMatched(e: Expr, st: State, w: State, at: seq<nat>, v: Value, st': State) returns (all: seq<nat>)
    requires Matches(st, w, at) && Eval(e, st, v, st')
    ensures var y := WorstEval(e, w); Matches(st', y.after, all) && ValueMatches(v, y.after.heap, y.value, all)
  {
    all := at;
    if LiteralNames(e).Literal? {
      if e.list {
        AllocIsMatched(st, w, at, Strs(StringsOf(e.elts)), Strs(StringsOf(e.elts)));
        all := at + [|w.heap|];
      }
    } else if Plain(e) {
      DisplayIsMatched(e.elts, st, w, at);
      AllocIsMatched(st, w, at, Box(RefsOf(e.elts, st.env), {}), Box(RefsOf(e.elts, w.env), {}));
      all := at + [|w.heap|];
    } else if e.NameRef? {
      if e.id !in st.env {
        if e.id in w.env {
          BuiltinIsMatched(st, w, at, w.env[e.id].r);
          all := at + [w.env[e.id].r];
        } else {
          AllocIsMatched(st, w, at, Box({}, {}), Box({}, {}));
          all := at + [|w.heap|];
        }
      }
    } else {
      all := UnknownIsMatched(st, w, at, {}, Uses(e), NONE, NONE, v, st');
    }
  }

  /** A new object that leads nowhere, for which an old one stands. */
  lemma BuiltinIsMatched(st: State, w: State, at: seq<nat>, r: nat)
    requires Matches(st, w, at) && r < |w.heap| && w.heap[r].Box?
    ensures Matches(Alloc(st, Box({}, {})), w, at + [r]) && ValueMatches(Ref(|st.heap|), w.heap, Ref(r), at + [r])
  {
    var st', all := Alloc(st, Box({}, {})), at + [r];
    forall i | 0 <= i < |st'.heap| ensures ObjectMatches(st'.heap[i], w.heap, all[i], all) {
      if i < |st.heap| { assert ObjectMatches(st.heap[i], w.heap, at[i], at); }
    }
    forall i, j | 0 <= i < j < |st'.heap| && all[i] == all[j] ensures w.heap[all[i]].Box? {
      assert ObjectMatches(st.heap[i], w.heap, at[i], at);
    }
    forall n | n in st.env ensures ValueMatches(st.env[n], w.heap, w.env[n], all) {
      assert ValueMatches(st.env[n], w.heap, w.env[n], at);
    }
  }

  lemma BindOneIsMatched(t: Target, v: Value, x: Value, st: State, w: State, at: seq<nat>, st': State)
    returns (all: seq<nat>)
    requires Matches(st, w, at) && ValueMatches(v, w.heap, x, at) && BindOne(t, v, st, st')
    requires ValueExists(st.heap, v) && ValueExists(w.heap, x)
    ensures var w' := WorstBindOne(t, x, w);
            Matches(st', w', all) && ValueMatches(v, w'.heap, x, all)
  {
    all := at;
    if t.Pattern? { all := UnknownIsMatched(st, w, at, t.binds, t.uses, v, x, NONE, st'); }
  }

  lemma MatchedExists(v: Value, st: State, w: State, x: Value, at: seq<nat>)
    requires Matches(st, w, at) && ValueMatches(v, w.heap, x, at)
    ensures ValueExists(st.heap, v) && ValueExists(w.heap, x)
  {
  }

  lemma {:induction false} BindIsMatched(targets: seq<Target>, v: Value, x: Value, st: State, w: State, at: seq<nat>,
                                         st': State) returns (all: seq<nat>)
    requires Matches(st, w, at) && ValueMatches(v, w.heap, x, at) && Bind(targets, v, st, st')
    ensures var w' := WorstBind(targets, x, w);
            Matches(st', w', all) && ValueMatches(v, w'.heap, x, all)
    decreases |targets|
  {
    all := at;
    if targets != [] {
      var front, last := targets[..|targets| - 1], targets[|targets| - 1];
      var mid :| Bind(front, v, st, mid) && BindOne(last, v, mid, st');
      all := BindIsMatched(front, v, x, st, w, at, mid);
      MatchedExists(v, mid, WorstBind(front, x, w), x, all);
      all := BindOneIsMatched(last, v, x, mid, WorstBind(front, x, w), all, st');
    }
  }

  lemma AssignIsMatched(targets: seq<Target>, value: Expr, st: State, w: State, at: seq<nat>, st': State)
    returns (all: seq<nat>)
    requires Matches(st, w, at) && Assigns(targets, value, st, st')
    ensures Matches(st', WorstAssign(targets, value, w), all)
  {
    var v, mid :| Eval(value, st, v, mid) && Bind(targets, v, mid, st');
    var e := WorstEval(value, w);
    all := EvalIsMatched(value, st, w, at, v, mid);
    all := BindIsMatched(targets, v, e.value, mid, e.after, all, st');
  }

  // ---- Augmented assignments ------------------------------------------------------------------------------

  /** What an augmented assignment does, unknown code could do. */
  lemma AugmentIsUnknown(id: string, op: Op, value: Expr, st: State, st': State)
    requires WellFormed(st) && Augments(id, op, value, st, st')
    ensures Unknown(st, {}, {id} + Uses(value), {}, NONE, st')
  {
    var uses := {id} + Uses(value);
    if LiteralNames(value).Literal? && Clean(st, id) {
      forall z | Closed(st, z) && Inside(Zone(uses, {}), z)
        ensures HeapConfined(st.heap, z, st'.heap) && EnvConfined(st.env, z, {}, |st.heap|, st'.env)
        ensures From(z, |st.heap|, NONE)
      {
        assert id in uses;
      }
    }
  }

  lemma ExtendIsMatched(id: string, value: Expr, st: State, w: State, at: seq<nat>)
    requires Matches(st, w, at) && value.Display? && id in w.env && IsStrs(w.heap, w.env[id])
    ensures id in st.env && IsStrs(st.heap, st.env[id]) && at[st.env[id].r] == w.env[id].r
    ensures Matches(Extend(st, st.env[id].r, value), Extend(w, w.env[id].r, value), at)
  {
    assert Clean(w, id);
    assert ValueMatches(st.env[id], w.heap, w.env[id], at);
    var o, a := st.env[id].r, w.env[id].r;
    assert ObjectMatches(st.heap[o], w.heap, at[o], at);
    var st', w' := Extend(st, o, value), Extend(w, a, value);
    ExtendGrows(w, a, value);
    forall i | 0 <= i < |st.heap| ensures ObjectMatches(st'.heap[i], w'.heap, at[i], at) {
      assert ObjectMatches(st.heap[i], w.heap, at[i], at);
      if i != o { assert at[i] != a; }
    }
    forall n | n in st.env ensures ValueMatches(st.env[n], w'.heap, w.env[n], at) {
      GrowingKeeps(st.env[n], w.heap, w'.heap, w.env[n], at, []);
      assert at + [] == at;
    }
    forall n | Clean(w', n) ensures n in st.env {
      assert Clean(w, n);
    }
  }

  lemma ExtendGrows(w: State, r: nat, value: Expr)
    requires r < |w.heap| && w.heap[r].Strs? && value.Display?
    ensures Grows(w.heap, Extend(w, r, value).heap)
  {
    var heap' := Extend(w, r, value).heap;
    forall z | HeldClosed(heap', z) ensures HeldClosed(w.heap, z) {
      forall o | o in z.objs && o < |w.heap| && w.heap[o].Box?
        ensures w.heap[o].refs <= z.objs && w.heap[o].vars <= z.vars
      {
        assert heap'[o] == w.heap[o];
      }
    }
  }

  /** An augmented assignment that does not raise does not raise in the worst run. */
  lemma AugmentIsMatched(id: string, op: Op, value: Expr, st: State, w: State, at: seq<nat>, st': State)
    returns (all: seq<nat>)
    requires Matches(st, w, at) && Augments(id, op, value, st, st')
    ensures !Raises(id, op, value, w) && Matches(st', WorstAugment(id, op, value, w), all)
  {
    assert ValueMatches(st.env[id], w.heap, w.env[id], at);
    all := at;
    if LiteralNames(value).Literal? && IsStrs(w.heap, w.env[id]) {
      ExtendIsMatched(id, value, st, w, at);
    } else if LiteralNames(value).Literal? && w.env[id].Strings? {
    } else {
      AugmentIsUnknown(id, op, value, st, st');
      all := UnknownIsMatched(st, w, at, {}, {id} + Uses(value), NONE, NONE, NONE, st');
    }
  }

  // ---- Statements and runs ----------------------------------------------------------------------------------

  lemma DefIsMatched(id: string, free: set<string>, st: State, w: State, at: seq<nat>)
    requires Matches(st, w, at)
    ensures Matches(State(st.env[id := Ref(|st.heap|)], st.heap + [Box({}, free)]),
                    State(w.env[id := Ref(|w.heap|)], w.heap + [Box({}, free)]), at + [|w.heap|])
  {
    var b := Box({}, free);
    assert Alloc(w, b).heap[|w.heap|] == b;
    AllocIsMatched(st, w, at, b, b);
  }

  /** Whatever a statement does in a run, the worst run gets past it too and still matches. */
  lemma StepIsMatched(s: Stmt, st: State, w: State, at: seq<nat>, st': State) returns (all: seq<nat>)
    requires Matches(st, w, at) && Step(s, st, st')
    ensures !Fails(s, w) && Matches(st', WorstStep(s, w), all)
  {
    match s
    case Assign(targets, value) => all := AssignIsMatched(targets, value, st, w, at, st');
    case AnnAssign(target, annotated) =>
      all := at;
      if annotated.Some? { all := AssignIsMatched([target], annotated.value, st, w, at, st'); }
    case AugAssign(target, op, value) =>
      if target.Name? {
        all := AugmentIsMatched(target.id, op, value, st, w, at, st');
      } else {
        all := UnknownIsMatched(st, w, at, {}, target.binds + target.uses + Uses(value), NONE, NONE, NONE, st');
      }
    case Def(id, free) =>
      DefIsMatched(id, free, st, w, at);
      all := at + [|w.heap|];
    case Other(binds, uses) => all := UnknownIsMatched(st, w, at, binds, uses, NONE, NONE, NONE, st');
  }

  /** The worst run is a run if there is any, and every run is matched by it. */
  lemma {:induction false} RunIsMatched(body: seq<Stmt>, st: State) returns (at: seq<nat>)
    requires Ends(body, st)
    ensures Runs(body) && Matches(st, Worst(body), at)
    decreases |body|
  {
    at := [];
    if body != [] {
      var front, last := body[..|body| - 1], body[|body| - 1];
      var mid :| Ends(front, mid) && Step(last, mid, st);
      at := RunIsMatched(front, mid);
      at := StepIsMatched(last, mid, Worst(front), at, st);
    }
  }
}
